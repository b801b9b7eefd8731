/**
 * The firmware's global state as it is updated in place: the array
 * `task_handlers`, the output levels of port E, the cursor `th_index`, the six
 * profilers, `cpu_load` and the halt of `error_handler`. Each method is one
 * call of a firmware routine (one loop iteration for the tasks) and is proved
 * to take `Model()` exactly as the matching transition of module Homework does.
 */
module Firmware {
  import opened Cursor
  import opened Leds
  import opened Load
  import opened Homework

  class Board {
    /** task_handlers: one optional task handle per LED colour. */
    const slots: array<Option<TaskHandle>>
    /** Output levels of port E, by pin number. */
    const port: array<bool>
    /** th_index */
    var cursor: nat
    var redProfiler: nat
    var greenProfiler: nat
    var blueProfiler: nat
    var orangeProfiler: nat
    var buttonProfiler: nat
    var idleProfiler: nat
    var cpuLoad: LoadValue
    /** Set once `error_handler` has been entered. */
    var halted: bool

    /** The board as a value of the state machine. */
    ghost function Model(): State
      reads this, slots, port
    {
      State(slots[..], cursor, port[..],
            Profilers(redProfiler, greenProfiler, blueProfiler, orangeProfiler, buttonProfiler, idleProfiler),
            cpuLoad, halted)
    }

    ghost predicate Valid()
      reads this, slots, port
    {
      slots.Length == MAX_TASKS_NUMBER && port.Length == PORT_PINS && Inv(Model())
    }

    /** The state after GPIO_Init and the initialisers of the globals. */
    constructor ()
      ensures Valid() && fresh(slots) && fresh(port)
      ensures Model() == PowerOn()
    {
      slots := new Option<TaskHandle>[MAX_TASKS_NUMBER](_ => None);
      port := new bool[PORT_PINS](_ => RESET);
      cursor := 0;
      redProfiler, greenProfiler, blueProfiler, orangeProfiler := 0, 0, 0, 0;
      buttonProfiler, idleProfiler := 0, 0;
      cpuLoad := Percent(0.0);
      halted := false;
      new;
      assert slots[..] == [None, None, None, None];
    }

    /** `error_handler`: both red LEDs set; the caller then never returns. */
    method ErrorHandler()
      requires Valid()
      modifies this, port
      ensures Valid()
      ensures Model() == Homework.ErrorHandler(old(Model()))
    {
      port[RED_LED_1] := SET;
      port[RED_LED_2] := SET;
      halted := true;
    }

    /** `manage_tasks(index)`, with the outcome of `xTaskCreate` as a parameter. */
    method Manage(index: nat, create: CreateResult)
      requires Valid() && !halted
      modifies this, slots, port
      ensures Valid()
      ensures Model() == ManageTasks(old(Model()), index, create)
    {
      if index < MAX_TASKS_NUMBER {
        var c := ColourOf(index);
        if slots[index] == None {
          match create
          case Created(h) =>
            slots[index] := Some(h);
          case AllocFailed =>
            ErrorHandler();
        } else {
          port[Led1(c)] := RESET;
          port[Led2(c)] := RESET;
          slots[index] := None;
        }
      } else {
        ErrorHandler();
      }
    }

    /** One pass of `read_button_state_task`, with the level read from the button as a parameter. */
    method PollButton(pressed: bool, create: CreateResult)
      requires Valid() && !halted
      modifies this, slots, port
      ensures Valid()
      ensures Model() == ReadButtonStep(old(Model()), pressed, create)
    {
      if pressed {
        if cursor < MAX_TASKS_NUMBER - 1 {
          cursor := cursor + 1;
        } else {
          cursor := 0;
        }
        Manage(cursor, create);
      }
    }

    /** One pass of the LED task of colour `c`, which exists only while its slot holds it. */
    method ToggleLeds(c: Colour)
      requires Valid() && !halted && slots[SlotOf(c)].Some?
      modifies this, port
      ensures Valid()
      ensures Model() == LedTaskStep(old(Model()), c)
    {
      port[Led1(c)] := !port[Led1(c)];
      port[Led2(c)] := !port[Led2(c)];
      match c
      case Red => redProfiler := redProfiler + 1;
      case Green => greenProfiler := greenProfiler + 1;
      case Blue => blueProfiler := blueProfiler + 1;
      case Orange => orangeProfiler := orangeProfiler + 1;
    }

    /** `vApplicationIdleHook`. */
    method IdleHook()
      requires Valid() && !halted
      modifies this
      ensures Valid()
      ensures Model() == IdleHookStep(old(Model()))
    {
      idleProfiler := idleProfiler + 1;
    }

    /** One pass of `cpu_load_calc_task`: read the counters, store the load, clear the counters. */
    method CalcLoad()
      requires Valid()
      modifies this
      ensures Valid()
      ensures Model() == CpuLoadStep(old(Model()))
    {
      ghost var before := Model();
      var total := redProfiler + greenProfiler + blueProfiler + orangeProfiler + buttonProfiler + idleProfiler;
      var useful := redProfiler + greenProfiler + blueProfiler + orangeProfiler + buttonProfiler;
      assert total == Total(before.profilers) && useful == Useful(before.profilers);
      cpuLoad := Quotient(useful, total);
      redProfiler := 0;
      greenProfiler := 0;
      blueProfiler := 0;
      orangeProfiler := 0;
      buttonProfiler := 0;
      idleProfiler := 0;
      assert Model() == CpuLoadStep(before);
    }
  }
}
