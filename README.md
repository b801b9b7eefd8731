# Homework firmware: task slots, button cursor and CPU-load bookkeeping

This project models the sequential bookkeeping of `homework/Core/Src/main.c`, a FreeRTOS
demonstration for an STM32F3 board. The program has these parts:

- A button poll task advances a round-robin cursor (`th_index`) on every poll that reads
  the user button as pressed. It then calls `manage_tasks` with the new cursor.
- `manage_tasks` toggles one of four slots in `task_handlers`:
  - An empty slot gets a newly created LED task.
  - An occupied slot has its task deleted, both LEDs of that colour driven low, and the
    slot cleared.
  - An index outside 0..3, or a creation that fails, enters `error_handler`. That handler
    lights both red LEDs and spins forever.
- Four LED tasks each toggle their two LEDs and increment their own profiler counter.
  The idle hook increments the idle counter.
- A load task computes `cpu_load = 100 * useful / total` from the six counters, then
  clears them.

The model has six modules:

- `Cursor` (cursor.dfy): the cursor step `Next` and `k` presses, `Advance`.
- `Leds` (leds.dfy): the eight LED pins of port E in four colour pairs, plus the HAL
  write and toggle of a pair.
- `Load` (load.dfy): the six profilers, `useful`, `total` and the value of `cpu_load`.
  That value is an exact real, or `NotANumber` for the unguarded `0/0`.
- `Homework` (homework.dfy): the whole state as a value, with one transition function
  per routine. `Inv` is the invariant every transition keeps. `Step` and `Run` apply a
  stream of scheduler events.
- `Properties` (properties.dfy): what the routines promise, proved about those
  transitions.
- `Firmware` (firmware.dfy): class `Board`, the same state updated in place. The slot
  table and port E are arrays, and the cursor, counters, `cpu_load` and halt flag are
  fields. Each method is proved to move `Model()` exactly as the matching transition of
  `Homework` does.

The model follows what the code does, including three behaviours a reader might not
expect:

- The load pass has no guard for `total == 0`. With every counter at zero the code
  computes `0.0f / 0.0f`, which is NaN, not 0. The first pass after power-on does this,
  because the load task has the highest priority and runs first.
- There is no edge detection on the button. Every poll that reads it as set counts as a
  press, so a held button cycles through the slots.
- The cursor is advanced before `manage_tasks` is called. The first press from power-on
  therefore toggles slot 1 (green), not slot 0.

## Model

| member | source | states |
|---|---|---|
| Cursor.Next | homework/Core/Src/main.c:180-184 | the cursor after a press is always in [0,4), and for a cursor in range it is the successor modulo 4 (3 wraps to 0) |
| Cursor.Advance | homework/Core/Src/main.c:179-185 | after at least one press the cursor is inside the table, whatever it started from |
| Cursor.AdvanceIsModular | homework/Core/Src/main.c:180-184 | k presses move an in-range cursor k places round the table: `(c + k) mod 4` |
| Cursor.FourPressesReturn | homework/Core/Src/main.c:180-184 | four presses return the cursor to its starting value |
| Cursor.PressTargetsFromPowerOn | homework/Core/Src/main.c:80 | from the initial `th_index = 0`, press k targets slot k mod 4: the first press targets slot 1, and slot 0 is reached only on presses that are multiples of 4 |
| Leds.WriteGroup | homework/Core/Src/main.c:311 | writing a colour pair sets both of its pins to the level and leaves every other pin of the port as it was |
| Leds.ToggleGroup | homework/Core/Src/main.c:199 | toggling a colour pair inverts both of its pins and leaves every other pin as it was |
| Leds.WriteKeepsPairs | homework/Core/Src/main.c:285 | after a pair write, the two pins of every colour are still at one level |
| Leds.ToggleKeepsPairs | homework/Core/Src/main.c:213 | after a pair toggle, the two pins of every colour are still at one level |
| Load.Incr | homework/Core/Src/main.c:200 | `profiler++` adds one to the named counter and leaves the other five unchanged |
| Load.Total | homework/Core/Src/main.c:259-264 | `total` (all six counters) equals `useful` (all but idle) plus the idle count, so `useful <= total` |
| Load.Quotient | homework/Core/Src/main.c:266 | `cpu_load` is NaN exactly when `total == 0`; otherwise it is the p with `p * total == 100 * useful`, and it lies in [0,100] |
| Load.FullLoadIffNoIdle | homework/Core/Src/main.c:259-266 | with total > 0, the load is 100 if and only if the idle counter is 0 |
| Load.ZeroLoadIffOnlyIdle | homework/Core/Src/main.c:259-266 | with total > 0, the load is 0 if and only if no non-idle counter moved |
| Load.EqualCountersScenario | homework/Core/Src/main.c:259-266 | counters all at 10 give useful 50, total 60 and a load of 250/3 |
| Load.NoActivityIsNaN | homework/Core/Src/main.c:266 | all counters at zero make the unguarded division yield NaN |
| Homework.PowerOn | homework/Core/Src/main.c:75-96 | the initial globals (no tasks, cursor 0, counters 0, `cpu_load` 0, LEDs low as GPIO_Init writes them) satisfy the invariant |
| Homework.ErrorHandler | homework/Core/Src/main.c:283-287 | entering `error_handler` halts and keeps the invariant (red LEDs lit) |
| Homework.ManageTasks | homework/Core/Src/main.c:297-358 | `manage_tasks` keeps the invariant: 4 slots, cursor in range, colour pairs in step, red lit when halted, button counter 0 |
| Homework.ReadButtonStep | homework/Core/Src/main.c:179-187 | one poll of the button task keeps the invariant |
| Homework.LedTaskStep | homework/Core/Src/main.c:198-201 | one LED task iteration keeps the invariant |
| Homework.IdleHookStep | homework/Core/Src/main.c:366-369 | the idle hook keeps the invariant |
| Homework.CpuLoadStep | homework/Core/Src/main.c:259-273 | one load pass keeps the invariant |
| Homework.Step | homework/Core/Src/main.c:68-70 | every event the scheduler can deliver keeps the invariant. A halt is never undone, and after it every event other than a load pass leaves the state unchanged |
| Homework.Run | homework/Core/Src/main.c:177-188 | every state reached by a stream of events keeps the invariant |
| Properties.ManageCreates | homework/Core/Src/main.c:303-305 | an empty slot with a successful creation becomes occupied with the new handle. Other slots, all LEDs, the cursor and the counters are unchanged, and there is no halt |
| Properties.ManageDeletes | homework/Core/Src/main.c:309-313 | an occupied slot becomes empty and both LEDs of its colour are reset. Other slots and every pin outside that colour are unchanged, whatever a creation would have returned |
| Properties.ManageFaults | homework/Core/Src/main.c:306-308 | an index outside 0..3, or a failed creation into an empty slot, halts with both red LEDs set. Nothing else changes, and the slot stays empty |
| Properties.ManageHaltsOnlyOnFault | homework/Core/Src/main.c:354-356 | `manage_tasks` halts if and only if the index is out of range or a creation into an empty slot fails |
| Properties.ManageTwiceRestores | homework/Core/Src/main.c:297-358 | create then delete on the same slot returns exactly to the previous state, except that that colour's LEDs are driven low |
| Properties.PollUnpressedIsIdle | homework/Core/Src/main.c:179 | a poll that does not read the button as set changes nothing |
| Properties.PollPressedTogglesNextSlot | homework/Core/Src/main.c:179-186 | a pressed poll sets the cursor to (cursor+1) mod 4 and changes only that slot, flipping it between empty and occupied. Only the LEDs of that slot's colour or the red LEDs can change level, and the counters and cpu_load are unchanged. It halts if and only if a creation into it fails, so the default branch is never reached from the poll |
| Properties.HeldButtonCycles | homework/Core/Src/main.c:177-188 | k consecutive pressed polls, with no other event between them and every creation succeeding, move the cursor k places (no edge latch: a held button keeps cycling) and never halt |
| Properties.FourPollsReturnCursor | homework/Core/Src/main.c:180-185 | four consecutive pressed polls, with no other event between them and every creation succeeding, bring the cursor back to its start |
| Properties.FivePressesFromPowerOn | homework/Core/Src/main.c:179-186 | five consecutive pressed polls from power-on, with no other event between them and every creation succeeding, toggle slots 1,2,3,0,1. Green ends deleted, red, blue and orange keep running, and all LEDs are off |
| Properties.LedTaskTogglesOwnGroup | homework/Core/Src/main.c:196-203 | an LED task iteration flips both of its own LEDs and increments only its own counter, by one. Every other pin, the slots, the cursor, the halt flag and cpu_load are unchanged |
| Properties.IdleHookCountsOnce | homework/Core/Src/main.c:366-369 | the idle hook increments only the idle counter, by exactly one, and changes nothing else |
| Properties.LoadPassMeasuresAndClears | homework/Core/Src/main.c:259-273 | `total = useful + idle`. The stored load is NaN if and only if total is 0, and otherwise lies in [0,100] with `load * total == 100 * useful`. All six counters end at zero; slots, LEDs, cursor and halt flag are unchanged |
| Properties.FirstLoadPassIsNaN | homework/Core/Src/main.c:256-266 | a load pass on the power-on state stores NaN |
| Properties.HaltIsFinal | homework/Core/Src/main.c:283-287 | once halted, no stream of events changes the slots, the cursor or the LEDs, and both red LEDs stay lit |
| Properties.HaltedSettles | homework/Core/Src/main.c:254-287 | after a halt, with the counters cleared, no event stream increments a counter again: they stay at zero. `cpu_load` either keeps its value or becomes NaN, and once a load pass has run it is NaN |
| Properties.ButtonCounterStaysZero | homework/Core/Src/main.c:95 | `read_button_state_task_profiler` is never incremented: it is 0 in every run from power-on, so `useful` counts only the four LED tasks |
| Properties.PairsStayInStep | homework/Core/Src/main.c:148-149 | in every run from power-on, both LEDs of each colour are at the same level |
| Firmware.Board.constructor | homework/Core/Src/main.c:75-96 | the new board's model is the power-on state |
| Firmware.Board.ErrorHandler | homework/Core/Src/main.c:283-287 | sets both red LEDs and the halt flag, as `Homework.ErrorHandler` |
| Firmware.Board.Manage | homework/Core/Src/main.c:297-358 | updates the slot array and port E in place exactly as `Homework.ManageTasks` |
| Firmware.Board.PollButton | homework/Core/Src/main.c:177-188 | updates the cursor, slots and port in place exactly as `Homework.ReadButtonStep` |
| Firmware.Board.ToggleLeds | homework/Core/Src/main.c:196-245 | one iteration of the LED task of a colour, exactly as `Homework.LedTaskStep` |
| Firmware.Board.IdleHook | homework/Core/Src/main.c:366-369 | increments the idle counter, exactly as `Homework.IdleHookStep` |
| Firmware.Board.CalcLoad | homework/Core/Src/main.c:254-277 | computes `total` and `useful`, stores the load and clears the counters, exactly as `Homework.CpuLoadStep` |

## Left out

- `main` and `GPIO_Init` (main.c:115-166) are clock, pin-mode and scheduler start-up
  plumbing. Only their result is modelled: every LED low, and the two initial tasks
  running.
- `xTaskCreate`, `vTaskDelete`, `vTaskDelay` and `vTaskStartScheduler` are not
  modelled as such:
  - A creation is a parameter: success with an opaque handle, or an allocation failure.
  - A deletion only clears the slot.
  - Task names, stack sizes, priorities and periods are not modelled, beyond what
    `Homework.Step` says about which tasks still run after a halt.
- The infinite loops of the tasks and of `error_handler` are modelled as one iteration
  per method or transition, and the halt as a flag.
- The four LED task functions (main.c:196-245) differ only in their pins and counter.
  They are modelled as one method and one transition, parameterised by colour.
- `cpu_load` is a `float`. The model computes the exact real quotient, and NaN for the
  `0/0` case. Float rounding and the float's representation are not modelled.
- `volatile`, and interleavings between a counter increment and the load pass's read
  then reset, are concurrency and are not modelled: a load pass is one atomic step.
- Every event is one atomic step. An LED task preempted by the poll task between its
  toggle and its `profiler++` (main.c:199-200) and deleted there is not modelled; in the
  code such a toggle goes uncounted.
- Load.Incr: counters are unbounded naturals; the `uint32_t` wrap-around of a counter is not modelled.
- Load.Total: the sums are unbounded. A `uint32_t` wrap-around of `total` or `useful`,
  which could break `useful <= total`, is not modelled.
- Firmware.Board.ToggleLeds: requires that the colour's task exists and the firmware has
  not halted, because the scheduler runs an LED task only while it exists.
- Firmware.Board.PollButton, Firmware.Board.IdleHook: require that the firmware has not
  halted, because after `error_handler` neither of these runs again.
- Firmware.Board.Manage: requires that the firmware has not halted. The same holds for
  `Homework.ManageTasks`, `Homework.ReadButtonStep` and `Homework.LedTaskStep`. Their
  only callers are the poll loop and the LED tasks, and neither runs after
  `error_handler` has been entered.
