/**
 * What the firmware's bookkeeping promises, proved about the transitions of
 * module Homework: the toggle behaviour of `manage_tasks`, its fault cases,
 * the cursor stepping of the poll loop, the counter updates, the load pass
 * and the finality of `error_handler`.
 */
module Properties {
  import opened Cursor
  import opened Leds
  import opened Load
  import opened Homework

  /**
   * `manage_tasks(i)` on an empty slot with a successful creation: slot i now
   * holds the new task; no other slot, no LED, the cursor and the counters are
   * unchanged, and the firmware keeps running.
   */
  lemma ManageCreates(s: State, i: nat, h: TaskHandle)
    requires Inv(s) && !s.halted && i < MAX_TASKS_NUMBER && s.slots[i].None?
    ensures var r := ManageTasks(s, i, Created(h));
      && !r.halted
      && r.slots[i] == Some(h)
      && (forall j :: 0 <= j < MAX_TASKS_NUMBER && j != i ==> r.slots[j] == s.slots[j])
      && r.port == s.port
      && r.cursor == s.cursor && r.profilers == s.profilers && r.cpuLoad == s.cpuLoad
  {
  }

  /**
   * `manage_tasks(i)` on an occupied slot: the slot is cleared and both LEDs of
   * colour i are at the reset level; no other slot and no other pin changes.
   * No task is created, so the creation outcome plays no part.
   */
  lemma ManageDeletes(s: State, i: nat, create: CreateResult)
    requires Inv(s) && !s.halted && i < MAX_TASKS_NUMBER && s.slots[i].Some?
    ensures var r := ManageTasks(s, i, create);
      && !r.halted
      && r.slots[i] == None
      && r.port[Led1(ColourOf(i))] == RESET && r.port[Led2(ColourOf(i))] == RESET
      && (forall j :: 0 <= j < MAX_TASKS_NUMBER && j != i ==> r.slots[j] == s.slots[j])
      && (forall p :: 0 <= p < PORT_PINS && !InGroup(p, ColourOf(i)) ==> r.port[p] == s.port[p])
      && r.cursor == s.cursor && r.profilers == s.profilers && r.cpuLoad == s.cpuLoad
  {
  }

  /**
   * The default branch of `manage_tasks` and a creation that does not return
   * pdPASS both enter `error_handler`: both red LEDs set, the machine halted,
   * and nothing else changed (a failed creation leaves its slot empty).
   */
  lemma ManageFaults(s: State, index: nat, create: CreateResult)
    requires Inv(s) && !s.halted
    requires index >= MAX_TASKS_NUMBER || (s.slots[index].None? && create.AllocFailed?)
    ensures var r := ManageTasks(s, index, create);
      && r.halted
      && r.port[RED_LED_1] == SET && r.port[RED_LED_2] == SET
      && (forall p :: 0 <= p < PORT_PINS && !InGroup(p, Red) ==> r.port[p] == s.port[p])
      && r.slots == s.slots && r.cursor == s.cursor
      && r.profilers == s.profilers && r.cpuLoad == s.cpuLoad
  {
  }

  /** `manage_tasks` halts exactly in the two fault cases. */
  lemma ManageHaltsOnlyOnFault(s: State, index: nat, create: CreateResult)
    requires Inv(s) && !s.halted
    ensures ManageTasks(s, index, create).halted
            <==> index >= MAX_TASKS_NUMBER || (s.slots[index].None? && create.AllocFailed?)
  {
  }

  /**
   * Two calls of `manage_tasks(i)` in a row on an empty slot, the first
   * creation succeeding: the task is created and deleted again, so the state is
   * the one before, except that both LEDs of colour i have been driven low.
   */
  lemma ManageTwiceRestores(s: State, i: nat, h: TaskHandle, create: CreateResult)
    requires Inv(s) && !s.halted && i < MAX_TASKS_NUMBER && s.slots[i].None?
    ensures var r1 := ManageTasks(s, i, Created(h));
      && !r1.halted
      && ManageTasks(r1, i, create) == s.(port := WriteGroup(s.port, ColourOf(i), RESET))
  {
    var r1 := ManageTasks(s, i, Created(h));
    assert r1.slots[i := None] == s.slots;
  }

  /** A poll that does not read the button as set changes nothing. */
  lemma PollUnpressedIsIdle(s: State, create: CreateResult)
    requires Inv(s) && !s.halted
    ensures ReadButtonStep(s, false, create) == s
  {
  }

  /**
   * A poll that reads the button as set advances the cursor by one place
   * (wrapping from 3 to 0) and makes one `manage_tasks` call on the new cursor:
   * only that slot can change, it flips between empty and occupied unless the
   * machine halts, and it halts only when a creation into it fails. Only the
   * LEDs of that slot's colour, or the red ones when it halts, can change
   * level; the counters and `cpu_load` are untouched. The default branch of
   * `manage_tasks` is never reached from the poll loop.
   */
  lemma PollPressedTogglesNextSlot(s: State, create: CreateResult)
    requires Inv(s) && !s.halted
    ensures var r := ReadButtonStep(s, true, create);
      var i := (s.cursor + 1) % MAX_TASKS_NUMBER;
      && r.cursor == i
      && (r.halted <==> s.slots[i].None? && create.AllocFailed?)
      && (!r.halted ==> r.slots[i].Some? == s.slots[i].None?)
      && (forall j :: 0 <= j < MAX_TASKS_NUMBER && j != i ==> r.slots[j] == s.slots[j])
      && (forall p :: 0 <= p < PORT_PINS && !InGroup(p, ColourOf(i)) && !InGroup(p, Red) ==> r.port[p] == s.port[p])
      && r.profilers == s.profilers && r.cpuLoad == s.cpuLoad
  {
  }

  /** The event stream of `|hs|` consecutive polls that read the button as set, each creation succeeding. */
  function Presses(hs: seq<TaskHandle>): (es: seq<Event>)
    ensures |es| == |hs|
  {
    if hs == [] then [] else [Poll(true, Created(hs[0]))] + Presses(hs[1..])
  }

  /**
   * A held button (or repeated presses), with no other event between the polls
   * and every creation succeeding: every poll advances the cursor, so
   * after `k` such polls the cursor has moved `k` places round the table, and
   * none of them halts the machine.
   */
  lemma {:induction false} HeldButtonCycles(s: State, hs: seq<TaskHandle>)
    requires Inv(s) && !s.halted
    ensures Run(s, Presses(hs)).cursor == Advance(s.cursor, |hs|)
    ensures !Run(s, Presses(hs)).halted
    decreases |hs|
  {
    if hs != [] {
      var es := Presses(hs);
      assert es[0] == Poll(true, Created(hs[0]));
      assert es[1..] == Presses(hs[1..]);
      var s1 := Step(s, es[0]);
      assert s1.cursor == Next(s.cursor) && !s1.halted by {
        PollPressedTogglesNextSlot(s, Created(hs[0]));
      }
      HeldButtonCycles(s1, hs[1..]);
    }
  }

  /**
   * Four consecutive polls that read the button as set, with no other event
   * between them and every creation succeeding, bring the cursor back to
   * where it was.
   */
  lemma FourPollsReturnCursor(s: State, hs: seq<TaskHandle>)
    requires Inv(s) && !s.halted && |hs| == MAX_TASKS_NUMBER
    ensures Run(s, Presses(hs)).cursor == s.cursor
  {
    HeldButtonCycles(s, hs);
    FourPressesReturn(s.cursor);
  }

  /**
   * Five consecutive pressed polls from power-on, with no other event between
   * them and every creation succeeding: they target slots
   * 1, 2, 3, 0 and 1 again, so green is created and deleted again while red,
   * blue and orange keep running; all LEDs are still off.
   */
  lemma FivePressesFromPowerOn(h1: TaskHandle, h2: TaskHandle, h3: TaskHandle, h4: TaskHandle, h5: TaskHandle)
    ensures Run(PowerOn(), Presses([h1, h2, h3, h4, h5]))
         == State([Some(h4), None, Some(h2), Some(h3)], 1, PowerOn().port, Cleared, Percent(0.0), false)
  {
    var s0 := PowerOn();
    var s1 := ReadButtonStep(s0, true, Created(h1));
    var s2 := ReadButtonStep(s1, true, Created(h2));
    var s3 := ReadButtonStep(s2, true, Created(h3));
    var s4 := ReadButtonStep(s3, true, Created(h4));
    var s5 := ReadButtonStep(s4, true, Created(h5));
    assert s1.slots == [None, Some(h1), None, None];
    assert s2.slots == [None, Some(h1), Some(h2), None];
    assert s3.slots == [None, Some(h1), Some(h2), Some(h3)];
    assert s4.slots == [Some(h4), Some(h1), Some(h2), Some(h3)];
    assert s5.slots == [Some(h4), None, Some(h2), Some(h3)];
    assert s5.port == s0.port;
    assert Presses([h5]) == [Poll(true, Created(h5))];
    assert Run(s4, Presses([h5])) == s5;
    assert Run(s3, Presses([h4, h5])) == s5;
    assert Run(s2, Presses([h3, h4, h5])) == s5;
    assert Run(s1, Presses([h2, h3, h4, h5])) == s5;
  }

  /**
   * One iteration of the LED task of colour `c` flips both of its LEDs, adds
   * one to its own counter and to no other, and leaves every other pin, the
   * slots, the cursor and `cpu_load` alone.
   */
  lemma LedTaskTogglesOwnGroup(s: State, c: Colour)
    requires Inv(s) && !s.halted
    ensures var r := LedTaskStep(s, c);
      && r.port[Led1(c)] == !s.port[Led1(c)] && r.port[Led2(c)] == !s.port[Led2(c)]
      && (forall p :: 0 <= p < PORT_PINS && !InGroup(p, c) ==> r.port[p] == s.port[p])
      && (forall t :: Count(r.profilers, t) == Count(s.profilers, t) + (if t == LedTask(c) then 1 else 0))
      && r.slots == s.slots && r.cursor == s.cursor && r.halted == s.halted && r.cpuLoad == s.cpuLoad
  {
  }

  /** The idle hook adds exactly one to the idle counter and changes nothing else. */
  lemma IdleHookCountsOnce(s: State)
    requires Inv(s)
    ensures var r := IdleHookStep(s);
      && Count(r.profilers, IdleTask) == Count(s.profilers, IdleTask) + 1
      && (forall t :: t != IdleTask ==> Count(r.profilers, t) == Count(s.profilers, t))
      && r.(profilers := s.profilers) == s
  {
  }

  /**
   * A load pass: `total` is `useful` plus the idle count; with `total > 0`
   * `cpu_load` is the percentage 100 * useful / total, which lies in [0, 100];
   * with `total == 0` it is NaN. Afterwards all six counters are zero, and the
   * slots, LEDs, cursor and halt flag are as before.
   */
  lemma LoadPassMeasuresAndClears(s: State)
    requires Inv(s)
    ensures var r := CpuLoadStep(s);
      && Total(s.profilers) == Useful(s.profilers) + s.profilers.idle
      && (r.cpuLoad.NotANumber? <==> Total(s.profilers) == 0)
      && (r.cpuLoad.Percent? ==> 0.0 <= r.cpuLoad.value <= 100.0)
      && (r.cpuLoad.Percent? ==>
            r.cpuLoad.value * Total(s.profilers) as real == 100.0 * Useful(s.profilers) as real)
      && (forall t :: Count(r.profilers, t) == 0)
      && r.slots == s.slots && r.port == s.port && r.cursor == s.cursor && r.halted == s.halted
  {
  }

  /**
   * The first load pass after power-on finds every counter at zero (the load
   * task has the highest priority, so it runs first) and stores NaN.
   */
  lemma FirstLoadPassIsNaN()
    ensures CpuLoadStep(PowerOn()).cpuLoad == NotANumber
  {
  }

  /**
   * `error_handler` is final: once halted, no stream of events changes the
   * slots, the cursor or the LEDs again, and the red LEDs stay lit.
   */
  lemma {:induction false} HaltIsFinal(s: State, es: seq<Event>)
    requires Inv(s) && s.halted
    ensures var r := Run(s, es);
      && r.halted && r.slots == s.slots && r.cursor == s.cursor && r.port == s.port
      && r.port[RED_LED_1] == SET && r.port[RED_LED_2] == SET
    decreases |es|
  {
    assert s.port[Led1(Red)] == s.port[Led2(Red)];
    if es != [] {
      var s1 := Step(s, es[0]);
      assert s1.halted && s1.slots == s.slots && s1.cursor == s.cursor && s1.port == s.port;
      HaltIsFinal(s1, es[1..]);
    }
  }

  /**
   * After a halt only the load task (priority 3) still runs: the LED tasks and
   * the idle task, below the spinning poll task, never count again. So once
   * the counters have been cleared they stay at zero, and every later load pass
   * finds `total == 0` and stores NaN.
   */
  lemma {:induction false} HaltedSettles(s: State, es: seq<Event>)
    requires Inv(s) && s.halted && s.profilers == Cleared
    ensures var r := Run(s, es);
      && r.profilers == Cleared
      && (r.cpuLoad == s.cpuLoad || r.cpuLoad == NotANumber)
      && (LoadTick in es ==> r.cpuLoad == NotANumber)
    decreases |es|
  {
    if es != [] {
      var s1 := Step(s, es[0]);
      assert s1.halted && s1.profilers == Cleared;
      assert s1.cpuLoad == s.cpuLoad || s1.cpuLoad == NotANumber;
      assert es[0] == LoadTick ==> s1.cpuLoad == NotANumber;
      HaltedSettles(s1, es[1..]);
      if LoadTick in es && LoadTick !in es[1..] {
        assert es[0] == LoadTick;
      }
    }
  }

  /**
   * Nothing increments the button task's counter, so in every run from
   * power-on it is zero and `useful` counts the four LED tasks only.
   */
  lemma ButtonCounterStaysZero(es: seq<Event>)
    ensures var r := Run(PowerOn(), es);
      && Count(r.profilers, ButtonTask) == 0
      && Useful(r.profilers) == r.profilers.red + r.profilers.green + r.profilers.blue + r.profilers.orange
  {
  }

  /** In every run from power-on, each colour's two LEDs are at one level. */
  lemma PairsStayInStep(es: seq<Event>, c: Colour)
    ensures var r := Run(PowerOn(), es);
      r.port[Led1(c)] == r.port[Led2(c)]
  {
  }
}
