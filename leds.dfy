/**
 * The eight user LEDs on port E (pins 8 to 15), grouped in four colour pairs,
 * and the two things the firmware does to a pair through the HAL: write both
 * pins to one level, and toggle both pins. A port's output levels are a
 * sequence of PORT_PINS booleans indexed by pin number (true = GPIO_PIN_SET).
 */
module Leds {
  import opened Cursor

  /** The four LED colours; each has one task slot, one LED task and two pins. */
  datatype Colour = Red | Green | Blue | Orange

  const BLUE_LED_1: nat := 8
  const RED_LED_1: nat := 9
  const ORANGE_LED_1: nat := 10
  const GREEN_LED_1: nat := 11
  const BLUE_LED_2: nat := 12
  const RED_LED_2: nat := 13
  const ORANGE_LED_2: nat := 14
  const GREEN_LED_2: nat := 15

  /** Number of pins of a GPIO port. */
  const PORT_PINS: nat := 16

  /** GPIO_PIN_SET and GPIO_PIN_RESET as output levels. */
  const SET: bool := true
  const RESET: bool := false

  /** The first pin of a colour pair. */
  function Led1(c: Colour): (p: nat)
    ensures 8 <= p < PORT_PINS
  {
    match c
    case Red => RED_LED_1
    case Green => GREEN_LED_1
    case Blue => BLUE_LED_1
    case Orange => ORANGE_LED_1
  }

  /** The second pin of a colour pair. */
  function Led2(c: Colour): (p: nat)
    ensures 8 <= p < PORT_PINS && p != Led1(c)
  {
    match c
    case Red => RED_LED_2
    case Green => GREEN_LED_2
    case Blue => BLUE_LED_2
    case Orange => ORANGE_LED_2
  }

  predicate InGroup(p: nat, c: Colour)
  {
    p == Led1(c) || p == Led2(c)
  }

  /** The pins of two different colours are disjoint. */
  lemma GroupsDisjoint(c: Colour, d: Colour)
    requires c != d
    ensures !InGroup(Led1(d), c) && !InGroup(Led2(d), c)
  {
  }

  /** The slot of `task_handlers` that the case of `manage_tasks` for this colour uses. */
  function SlotOf(c: Colour): (i: nat)
    ensures i < MAX_TASKS_NUMBER
  {
    match c
    case Red => 0
    case Green => 1
    case Blue => 2
    case Orange => 3
  }

  /** The colour whose task lives in slot `i`. */
  function ColourOf(i: nat): (c: Colour)
    requires i < MAX_TASKS_NUMBER
    ensures SlotOf(c) == i
  {
    if i == 0 then Red else if i == 1 then Green else if i == 2 then Blue else Orange
  }

  /** `HAL_GPIO_WritePin(GPIOE, LED_1 | LED_2, level)` on the levels of port E. */
  function WriteGroup(port: seq<bool>, c: Colour, level: bool): (r: seq<bool>)
    requires |port| == PORT_PINS
    ensures |r| == PORT_PINS
    ensures r[Led1(c)] == level && r[Led2(c)] == level
    ensures forall p :: 0 <= p < PORT_PINS && !InGroup(p, c) ==> r[p] == port[p]
  {
    port[Led1(c) := level][Led2(c) := level]
  }

  /** `HAL_GPIO_TogglePin(GPIOE, LED_1 | LED_2)`: each selected pin flips. */
  function ToggleGroup(port: seq<bool>, c: Colour): (r: seq<bool>)
    requires |port| == PORT_PINS
    ensures |r| == PORT_PINS
    ensures r[Led1(c)] == !port[Led1(c)] && r[Led2(c)] == !port[Led2(c)]
    ensures forall p :: 0 <= p < PORT_PINS && !InGroup(p, c) ==> r[p] == port[p]
  {
    port[Led1(c) := !port[Led1(c)]][Led2(c) := !port[Led2(c)]]
  }

  /** Both pins of every colour are at the same level. */
  predicate PairsAgree(port: seq<bool>)
    requires |port| == PORT_PINS
  {
    forall c: Colour :: port[Led1(c)] == port[Led2(c)]
  }

  /** Writing a pair keeps every pair's two pins in step. */
  lemma WriteKeepsPairs(port: seq<bool>, c: Colour, level: bool)
    requires |port| == PORT_PINS && PairsAgree(port)
    ensures PairsAgree(WriteGroup(port, c, level))
  {
    forall d: Colour ensures WriteGroup(port, c, level)[Led1(d)] == WriteGroup(port, c, level)[Led2(d)] {
      if d != c { GroupsDisjoint(c, d); }
    }
  }

  /** Toggling a pair keeps every pair's two pins in step. */
  lemma ToggleKeepsPairs(port: seq<bool>, c: Colour)
    requires |port| == PORT_PINS && PairsAgree(port)
    ensures PairsAgree(ToggleGroup(port, c))
  {
    forall d: Colour ensures ToggleGroup(port, c)[Led1(d)] == ToggleGroup(port, c)[Led2(d)] {
      if d != c { GroupsDisjoint(c, d); }
    }
  }
}
