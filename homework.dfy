/**
 * The bookkeeping of the homework firmware as one state machine over values:
 * the task slot table `task_handlers`, the cursor `th_index`, the levels of
 * port E, the six profilers, `cpu_load` and whether `error_handler` has been
 * entered. Each routine of the firmware is one transition function; `Step`
 * and `Run` apply a stream of such events, as the scheduler would deliver them.
 */
module Homework {
  import opened Cursor
  import opened Leds
  import opened Load

  datatype Option<T> = None | Some(value: T)

  /** TaskHandle_t: opaque; the model only needs whether a slot holds one. */
  datatype TaskHandle = TaskHandle(id: nat)

  /** The outcome of `xTaskCreate`: pdPASS with the new handle, or a failure to allocate. */
  datatype CreateResult = Created(handle: TaskHandle) | AllocFailed

  datatype State = State(
    slots: seq<Option<TaskHandle>>,  // task_handlers
    cursor: nat,                     // th_index
    port: seq<bool>,                 // output levels of port E, by pin number
    profilers: Profilers,            // the six *_task_profiler counters
    cpuLoad: LoadValue,              // cpu_load
    halted: bool)                    // error_handler has been entered

  /**
   * What holds in every reachable state: four slots, a cursor inside the
   * table, the two pins of each colour at one level, the red pins lit once
   * halted, and the button task's counter still at zero (nothing increments it).
   */
  predicate Inv(s: State)
  {
    |s.slots| == MAX_TASKS_NUMBER && |s.port| == PORT_PINS && s.cursor < MAX_TASKS_NUMBER
    && PairsAgree(s.port)
    && (s.halted ==> s.port[RED_LED_1] == SET)
    && s.profilers.button == 0
  }

  /** The state after GPIO_Init and the global initialisers: no task, all LEDs off, counters 0, cpu_load 0. */
  function PowerOn(): (s: State)
    ensures Inv(s) && !s.halted
  {
    State([None, None, None, None], 0, seq(PORT_PINS, _ => RESET), Cleared, Percent(0.0), false)
  }

  /** `error_handler`: both red LEDs set, then the calling task spins forever. */
  function ErrorHandler(s: State): (r: State)
    requires Inv(s)
    ensures Inv(r) && r.halted
  {
    WriteKeepsPairs(s.port, Red, SET);
    s.(port := WriteGroup(s.port, Red, SET), halted := true)
  }

  /**
   * `manage_tasks(index)`: for a slot index in range, create the colour's LED
   * task into an empty slot (a failed creation leaves the slot empty and goes
   * to `error_handler`), or delete the task of an occupied slot, drive its two
   * LEDs low and clear the slot; any other index goes to `error_handler`.
   */
  function ManageTasks(s: State, index: nat, create: CreateResult): (r: State)
    requires Inv(s) && !s.halted
    ensures Inv(r)
  {
    if index >= MAX_TASKS_NUMBER then
      ErrorHandler(s)
    else if s.slots[index].None? then
      match create
      case Created(h) => s.(slots := s.slots[index := Some(h)])
      case AllocFailed => ErrorHandler(s)
    else
      WriteKeepsPairs(s.port, ColourOf(index), RESET);
      s.(slots := s.slots[index := None], port := WriteGroup(s.port, ColourOf(index), RESET))
  }

  /**
   * One poll of `read_button_state_task`: when the button reads as set, advance
   * the cursor and call `manage_tasks` with the new cursor. There is no edge
   * latch: every poll that reads the button as set does this.
   */
  function ReadButtonStep(s: State, pressed: bool, create: CreateResult): (r: State)
    requires Inv(s) && !s.halted
    ensures Inv(r)
  {
    if pressed then
      var c := Next(s.cursor);
      ManageTasks(s.(cursor := c), c, create)
    else
      s
  }

  /** One iteration of the LED task of colour `c`: toggle its two LEDs and count the iteration. */
  function LedTaskStep(s: State, c: Colour): (r: State)
    requires Inv(s) && !s.halted
    ensures Inv(r)
  {
    ToggleKeepsPairs(s.port, c);
    s.(port := ToggleGroup(s.port, c), profilers := Incr(s.profilers, LedTask(c)))
  }

  /** `vApplicationIdleHook`: count one idle iteration. */
  function IdleHookStep(s: State): (r: State)
    requires Inv(s)
    ensures Inv(r)
  {
    s.(profilers := Incr(s.profilers, IdleTask))
  }

  /** One iteration of `cpu_load_calc_task`: compute `cpu_load` from the counters, then clear them. */
  function CpuLoadStep(s: State): (r: State)
    requires Inv(s)
    ensures Inv(r)
  {
    s.(cpuLoad := Quotient(Useful(s.profilers), Total(s.profilers)), profilers := Cleared)
  }

  /** What the scheduler can run next. */
  datatype Event =
    | Poll(pressed: bool, create: CreateResult)  // one pass of the button poll loop
    | LedTick(colour: Colour)                    // one pass of an LED task loop
    | IdleTick                                   // one call of the idle hook
    | LoadTick                                   // one pass of the load calculation loop

  /**
   * Apply one event. An LED task runs only while it exists in its slot. Once
   * `error_handler` spins inside the poll task (priority 2), neither the LED
   * tasks (priority 1) nor the idle task run again, and the poll loop does not
   * come back; the load task (priority 3) still runs.
   */
  function Step(s: State, e: Event): (r: State)
    requires Inv(s)
    ensures Inv(r)
    ensures s.halted ==> r.halted
    ensures s.halted && !e.LoadTick? ==> r == s
  {
    match e
    case Poll(pressed, create) => if s.halted then s else ReadButtonStep(s, pressed, create)
    case LedTick(c) => if s.halted || s.slots[SlotOf(c)].None? then s else LedTaskStep(s, c)
    case IdleTick => if s.halted then s else IdleHookStep(s)
    case LoadTick => CpuLoadStep(s)
  }

  /** Apply a stream of events in order; every state reached keeps the invariant. */
  function Run(s: State, es: seq<Event>): (r: State)
    requires Inv(s)
    ensures Inv(r)
    decreases |es|
  {
    if es == [] then s else Run(Step(s, es[0]), es[1..])
  }
}
