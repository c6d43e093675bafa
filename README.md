# Rocket ground-control core, modelled in Dafny

This project models the logic of a small liquid-rocket ground-control panel
written in Python with PyQt6. Every layout, styling and palette detail is
dropped. What remains:

- **The fire procedure console** (`test.py`). Each of four stages ("Leak
  Checks:", "Upper Pressurization:", "Fuel/Ox Pressurization:",
  "Initiate Launch:") keeps a dict of task completion flags.
  - The `FireProcedure` queries offer the first pending task of a stage.
  - `changeStatus` marks a task done.
  - A `StateMachine` lets the console leave a stage only once all of that
    stage's flags are set.
  - `MainWindow` wires the four stages into a linear sequence behind two
    buttons. Module `Procedure`, file `procedure.dfy`.
- **The launch sequencers** of `main.py` and `gui.py`.
  - Each is an index into a fixed tuple of launch states that PROCEED
    advances, plus an abort latch.
  - In `main.py`, advancing at the last state starts a 10-second countdown
    that ends in BLASTOFF.
  - Modules `MainLaunch` and `GuiLaunch`.
- **The serial worker** (`utils/gui_serial.py`).
  - `readEolLine` frames one LF-terminated line out of one-byte reads and
    decodes it as ASCII.
  - `sendToggle` builds the toggle message.
  - `run` polls for lines behind an error latch and emits `msg`, `error`
    and `cleanup` signals.
  - Module `GuiSerial`.
- **The generic handler-driven state machines** of `sm.py` and
  `test/sm.py`, with their example handlers. Modules `HandlerSm` and
  `TestHandlerSm`.

Where the code changes objects in place, the model uses classes whose
methods have `modifies` clauses. Each such method is tied to a pure
function or to an explicit description of its new state, and the
properties are proved about those functions as lemmas. Where the code
raises an exception that nothing catches, the model returns an explicit
`Raised` / `KeyError` / `TypeError` outcome instead. The GUI uses
PyQt6, where an exception that escapes a slot connected to a button is
fatal: PyQt6 reports it and aborts the application. A `Raised` outcome of
`MainWindow.UpdateStage` or `MainWindow.UpdateTask` therefore stands for
the end of the program, not for a press that merely has no effect.

Abort exists only in the `main.py`/`gui.py` sequencers, as a latch beside
the stage index. The procedure console of `test.py` has no abort. The
serial worker forwards raw lines only.

Behaviour of the code as written that the model keeps on purpose:
- `changeStatus` with a label that is neither a stage nor a known task
  still writes a flag for that label into the current stage's dict. The
  write happens before the widget lookup raises the `KeyError` that
  `changeStatus` swallows.
- Once the last stage has been left, `currentStage` is `None`. From then
  on `update` and `updateTask` raise `KeyError` on `tasks[None]` /
  `states[None]`.
- In `main.py` the ABORT button is never connected: the `connect` line at
  main.py:294 is commented out. `_abortMission` is modelled as an
  operation all the same. Its `self.countdown.stop()` raises
  AttributeError when no countdown has ever been started, and that error
  is swallowed. The model then leaves the timer as it was.
- `test/sm.py`'s `idleHandler` compares the builtin `input` function, not
  its argument, with `'go'`. So it always answers `('state1', '')`.

## Model

| member | source | states |
|---|---|---|
| Procedure.TableFlagsKeys | test.py:84-92 | Writing a task table entry by entry into a stage's dict makes exactly the table's task ids the keys |
| Procedure.TableFlagsLastWins | test.py:84-92 | When an id occurs more than once in a table, the flag written by its last entry is the one kept |
| Procedure.TableFlagsOfTables | test.py:44-48 | Each of the four task tables contributes exactly its own ids, every one False |
| Procedure.InitialTasksFollowTables | test.py:44-48 | The initial flag maps are keyed by exactly the four stage names, each stage's map is exactly what its task table contributes, and every flag is False |
| Procedure.NextTask | test.py:110-132 | The rule all four queries follow: None exactly when every task in the stage's order is done; otherwise a pending task such that every task before it in that order is done |
| Procedure.Marked | test.py:96-108 | changeStatus's effect: a stage label, or no current stage, changes nothing; any other label gets the given flag in the current stage's map (inserted if unknown) with every other flag and every other stage untouched; re-marking with the same value changes nothing; the keys the queries need stay present |
| Procedure.FireProcedure.constructor | test.py:55-67 | Starts at "Leak Checks:" with the initial flag maps, every task pending |
| Procedure.FireProcedure.AddStage | test.py:76-94 | The stage's map becomes its previous map (or a new one) updated with the table's flags in table order; an empty table creates no map; the current stage is unchanged |
| Procedure.FireProcedure.ChangeStatus | test.py:96-108 | The new flag maps are Marked(old maps, current stage, label, status); the current stage is unchanged |
| Procedure.FireProcedure.IdleTasks | test.py:110-113 | Offers NextTask over the leak-check stage's flags in table order (COPV_O), else NULL |
| Procedure.FireProcedure.HighPressTasks | test.py:115-120 | Offers NextTask over the upper-pressurization flags in table order (KBOTTLE, COPV_E), else NULL |
| Procedure.FireProcedure.TankHighPressTasks | test.py:122-127 | Offers NextTask over the fuel/ox flags in table order (COPV_C, TANKS), else NULL |
| Procedure.FireProcedure.FireTasks | test.py:129-132 | Offers NextTask over the launch flags (FIRE_I), else NULL |
| Procedure.StateMachine.constructor | test.py:142-145 | No stages registered; the start stage is the procedure's current stage |
| Procedure.StateMachine.AddState | test.py:155-156 | Registers or replaces one stage's successor and query, nothing else |
| Procedure.StateMachine.Update | test.py:158-165 | KeyError for a missing current stage; False (current stage kept) when any flag of the current stage is unset; otherwise the stage just left, with the current stage moved to its configured successor; flags never change |
| Procedure.GateMatchesQuery | test.py:158-162 | When a stage's map holds exactly the ids its query walks, update's "all flags set" gate holds exactly when the query has no task left to offer |
| Procedure.ConfirmingShrinksPending | test.py:96-108 | Confirming the task a query offers sets a pending flag: exactly that task leaves the stage's pending set, which shrinks by one |
| Procedure.Confirmations | test.py:206-218 | k presses of the task button, each confirming the task the query offers, never add or remove a key of the stage's map |
| Procedure.ConfirmationsReachGate | test.py:158-162 | For a stage whose map holds exactly its query's ids, update's all-flags-set gate holds after k confirmations of offered tasks exactly when k is at least the number of pending tasks: the stage can be left after that many confirmations and no sooner |
| Procedure.OfferedTaskIsTaskId | test.py:206-218 | The task a stage's query offers is one of that stage's own ids and never a stage name, so confirming it cannot hit changeStatus's stage-label branch |
| Procedure.WiringIsLinear | test.py:181-184 | The wiring covers exactly the four stages and sends each to the next one in RocketStates.states order, the last to None |
| Procedure.MainWindow.constructor | test.py:170-184 | Builds the procedure and the machine wired as above, at "Leak Checks:" with every task pending |
| Procedure.MainWindow.WiredQuery | test.py:181-184 | The query a stage is wired to offers NextTask over that stage's own flags in its own table order |
| Procedure.MainWindow.UpdateStage | test.py:199-204 | Raises exactly when no stage is current; otherwise refuses exactly when the stage's query still offers a task, and on success moves to the wired successor; flags never change |
| Procedure.MainWindow.UpdateTask | test.py:206-218 | Raises (no prompt, nothing changes) when no stage is current; otherwise prompts with the stage's next pending task and, on confirmation of an offered task, sets exactly that task's flag |
| MainLaunch.AfterAdvance | main.py:266-280 | While not aborted: below the last state, exactly one state on with its name shown; at the last state, a countdown started at 10 and running; when aborted, nothing changes; reachable states stay reachable |
| MainLaunch.AfterAbort | main.py:282-289 | The latch is set, the state and moment are kept, any countdown is stopped, "MISSION ABORTED" is shown |
| MainLaunch.AfterTick | main.py:300-309 | A timeout changes neither the state nor the latch and does nothing unless the countdown is running; reachable states stay reachable |
| MainLaunch.Run | main.py:266-309 | Any sequence of presses, aborts and timeouts keeps the state index within LAUNCH_STATES and the countdown within 1..10 while it runs |
| MainLaunch.StageStaysInRange | main.py:143-145 | From the initial fields the state index never exceeds 3 |
| MainLaunch.StageNeverDecreases | main.py:266-280 | No event moves the state index backwards |
| MainLaunch.AbortedIsFrozen | main.py:269-274 | Aborted with no countdown running, no event changes anything |
| MainLaunch.AbortIsFinal | main.py:282-289 | After an abort, no later press or timeout changes the state, the moment, the timer or the latch |
| MainLaunch.CountdownRunsOut | main.py:300-305 | A running countdown with n seconds left shows n-1, ..., 1, BLASTOFF on its next n timeouts and is then stopped |
| MainLaunch.LaunchCountdown | main.py:296-309 | Advancing at FIRE shows 10 at once, then 9, ..., 1, BLASTOFF on ten timeouts, after which timeouts show nothing |
| MainLaunch.RocketDisplayWindow.constructor | main.py:143-145 | State IDLE, not aborted, no countdown |
| MainLaunch.RocketDisplayWindow.AdvanceState | main.py:266-280 | The new fields and the shown text are AfterAdvance of the old fields |
| MainLaunch.RocketDisplayWindow.AbortMission | main.py:282-289 | The new fields and the shown text are AfterAbort of the old fields |
| MainLaunch.RocketDisplayWindow.CountDown | main.py:296-309 | Unless aborted: moment 11, one second counted at once, timer running |
| MainLaunch.RocketDisplayWindow.CountSecond | main.py:300-305 | One second less; at 0 the moment is BLASTOFF and the timer stopped |
| MainLaunch.RocketDisplayWindow.Tick | main.py:307-309 | The new fields and the shown text are AfterTick of the old fields |
| GuiLaunch.AfterAdvance | gui.py:237-243 | While not aborted and below FLIGHT, exactly one mode on with its name shown; otherwise nothing changes and nothing is shown; the latch is kept |
| GuiLaunch.AfterAbort | gui.py:245-248 | The latch is set, the mode kept, "MISSION ABORTED" shown |
| GuiLaunch.Run | gui.py:250-253 | Any sequence of PROCEED and ABORT presses keeps the mode index within LAUNCH_MODE |
| GuiLaunch.StageStaysInRange | gui.py:117-119 | From the initial fields the mode index never exceeds 4 |
| GuiLaunch.StageNeverDecreases | gui.py:237-243 | No press moves the mode index backwards |
| GuiLaunch.AbortIsFinal | gui.py:245-248 | After an abort, no later press changes the mode or the latch |
| GuiLaunch.ProceedReachesFlight | gui.py:237-243 | Four presses of PROCEED from LOADING reach FLIGHT; a fifth changes nothing |
| GuiLaunch.RocketDisplayWindow.constructor | gui.py:117-119 | Mode LOADING, not aborted |
| GuiLaunch.RocketDisplayWindow.AdvanceState | gui.py:237-243 | The new fields and the shown text are AfterAdvance of the old fields |
| GuiLaunch.RocketDisplayWindow.AbortMission | gui.py:245-248 | The new fields and the shown text are AfterAbort of the old fields |
| GuiSerial.Decode | utils/gui_serial.py:56 | Succeeds exactly when every byte is below 128, and then yields one character per byte with that code; otherwise a decode error |
| GuiSerial.Encode | utils/gui_serial.py:63 | ASCII text becomes one byte per character with that code |
| GuiSerial.FrameShape | utils/gui_serial.py:45-55 | The framed bytes are exactly the leading data reads; an LF can only be the last byte; at most one read more than bytes; framing stops at an LF, an empty read, a failing read or the end of input, and fails exactly on a failing read |
| GuiSerial.FrameStopsAtLf | utils/gui_serial.py:48-53 | A line of non-LF bytes followed by LF is framed exactly, reading nothing past the LF, whatever follows |
| GuiSerial.LineRoundTrip | utils/gui_serial.py:45-56 | An ASCII payload without a newline, sent as payload + "\n", is read back by readEolLine as exactly that text |
| GuiSerial.ReadEolLine | utils/gui_serial.py:38-56 | Returns the framed bytes decoded as ASCII (or the serial or decode error) and makes exactly the reads the framing makes |
| GuiSerial.SerialWorker.constructor | utils/gui_serial.py:81-93 | Stores the default pins |
| GuiSerial.SerialWorker.SetPins | utils/gui_serial.py:95-101 | Replaces the default pins |
| GuiSerial.SerialWorker.SendToggle | utils/gui_serial.py:128-137 | The message is the argument when it is a non-empty string, otherwise the default pins, followed by exactly one trailing newline |
| GuiSerial.FinishedIsFinal | utils/gui_serial.py:108-126 | After the loop has ended, nothing more is read or emitted |
| GuiSerial.LoopExit | utils/gui_serial.py:108-126 | A pass that finds `program` False ends the loop with cleanup alone |
| GuiSerial.ErrorLatched | utils/gui_serial.py:107-117 | Once the error latch is set, no read happens and error is not emitted again |
| GuiSerial.ErrorAtMostOnce | utils/gui_serial.py:107-117 | Over any run, the error signal is emitted at most once |
| GuiSerial.SignalsWellFormed | utils/gui_serial.py:122-126 | msg carries only non-empty lines; cleanup is only ever the last signal, and is emitted exactly when some pass finds `program` False |
| GuiSerial.Run | utils/gui_serial.py:103-126 | The signals and the read count of run's loop over the given passes are those of the per-pass step rule |
| HandlerSm.StateMachine.constructor | sm.py:2-6 | No handlers, no start or current state, no end states |
| HandlerSm.StateMachine.AddState | sm.py:8-12 | Stores or overwrites the handler; appends the name to the end states exactly when asked to; start and current state kept |
| HandlerSm.StateMachine.SetStart | sm.py:14-16 | Start and current state both become the name; handlers and end states kept |
| HandlerSm.StateMachine.Update | sm.py:18-22 | KeyError for a missing handler, TypeError for a None one, both leaving the state; otherwise the current state becomes the handler's first result and the reply is its output with whether that state is an end state; handlers, start and end states never change |
| HandlerSm.Handler1 | sm.py:67-71 | Moves to state2, saying "going", exactly on "go"; otherwise stays in state1 silently |
| HandlerSm.Handler2 | sm.py:73-77 | Moves to end, saying "stopping", exactly on "stop"; otherwise stays in state2 silently |
| HandlerSm.ExampleRun | sm.py:79-83 | The example machine stays put on other input, answers "going" (not an end) to "go" and "stopping" (an end) to "stop", is then in end, and the next update raises TypeError |
| TestHandlerSm.StateMachine.constructor | test/sm.py:44-48 | No handlers, no start or current state, no end states |
| TestHandlerSm.StateMachine.AddState | test/sm.py:50-54 | Stores or overwrites the handler; appends the name to the end states exactly when asked to; start and current state kept |
| TestHandlerSm.StateMachine.SetStart | test/sm.py:56-58 | Start and current state both become the name; handlers and end states kept |
| TestHandlerSm.StateMachine.Update | test/sm.py:60-64 | KeyError for a missing handler, TypeError for a None one, both leaving the state; otherwise the current state becomes the handler's first result and the reply is that state with the output; handlers, start and end states never change |
| TestHandlerSm.IdleHandlerWith | test/sm.py:69-73 | idleHandler's answer is ("state2", "going") exactly when the value of the global `input` equals "go", and ("state1", "") otherwise; the argument plays no part |
| TestHandlerSm.IdleHandlerIgnoresInput | test/sm.py:69-73 | The name `input` is bound to the builtin function, which is not "go", so idleHandler gives ("state1", "") for every argument |
| TestHandlerSm.IdleRun | test/sm.py:60-73 | A machine started in an idleHandler state stays in it whatever the operator confirms |

## Left out

- All Qt presentation: widget creation, layouts, palettes, style sheets,
  label text formatting, header restyling in `changeStatus`/`addStage`,
  and the `labels` dict.
- Procedure.MainWindow.UpdateTask: models the confirmation dialog as the
  `confirmed` argument, i.e. as if `QMessageBox` were available. As
  written, test.py:209 names `QMessageBox`, which neither test.py nor the
  `from main import *` it relies on (main.py:9-22) imports. In the code as
  written, `updateTask` therefore raises NameError after running the query
  and before any flag is set, so the running program can never mark a
  task. The model does not capture that NameError.
- `Clock` in main.py and gui.py, which reads the wall clock.
- `SerialComm.__init__`, `receiveMessage`, `sendMessage` and `close`,
  which are device I/O. The serial device is replaced by the outcome of
  each `read(1)` (`ReadResult`). Input that runs out behaves as an empty
  read, which is not counted.
- The `QMutex` and its `tryLock` spin, `time.sleep`, and the worker
  thread. Whether each `tryLock` in `run` succeeded is an input of the
  pass (`Poll.locked`). `sendToggle`'s blocking spin and its write are not
  modelled; `SerialWorker.SendToggle` returns the message it would write.
- `GuiSerial.Run` covers only finitely many passes. If every given pass
  still finds `program` set, it returns the signals so far without
  cleanup.
- `MainLaunch.AfterAdvance`: does not model the overlapping timers that a
  second PROCEED at FIRE creates. `_countDown` then starts a new QTimer
  without stopping the old one, and the model keeps a single timer.
- The PROCEED/ABORT button wiring, and the widget swap that `main.py`
  performs after starting the countdown (main.py:277-280).
- The interactive `input()` loop and `print` calls of sm.py, and the
  `RocketStates` constant tables of sm.py and test/sm.py, which nothing in
  those files uses.
- `handler2` of test/sm.py: it takes no parameter, so `update` cannot
  call it.
- Telemetry parsing, pressure bands, `regress` and an ABORTED procedure
  stage: the code has none of them.
