/**
 * The activity counters (`*_task_profiler`) and the CPU load estimate computed
 * from them: the share of non-idle iterations among all counted iterations.
 * Counters are unbounded naturals; `cpu_load` is an exact real, or NaN.
 */
module Load {
  import opened Leds

  /** The six counters: four LED tasks, the button task and the idle hook. */
  datatype Profilers = Profilers(red: nat, green: nat, blue: nat, orange: nat, button: nat, idle: nat)

  /** Which counter: that of an LED task, of the button task, or of the idle hook. */
  datatype Counter = LedTask(colour: Colour) | ButtonTask | IdleTask

  /** All six counters at zero (their initial value, and the value after a load pass). */
  const Cleared: Profilers := Profilers(0, 0, 0, 0, 0, 0)

  function Count(p: Profilers, t: Counter): nat
  {
    match t
    case LedTask(Red) => p.red
    case LedTask(Green) => p.green
    case LedTask(Blue) => p.blue
    case LedTask(Orange) => p.orange
    case ButtonTask => p.button
    case IdleTask => p.idle
  }

  /** `profiler++` on one counter: that counter grows by exactly one, no other changes. */
  function Incr(p: Profilers, t: Counter): (r: Profilers)
    ensures forall u :: Count(r, u) == Count(p, u) + (if u == t then 1 else 0)
  {
    match t
    case LedTask(Red) => p.(red := p.red + 1)
    case LedTask(Green) => p.(green := p.green + 1)
    case LedTask(Blue) => p.(blue := p.blue + 1)
    case LedTask(Orange) => p.(orange := p.orange + 1)
    case ButtonTask => p.(button := p.button + 1)
    case IdleTask => p.(idle := p.idle + 1)
  }

  /** `useful`: the sum of every counter except the idle one. */
  function Useful(p: Profilers): nat
  {
    p.red + p.green + p.blue + p.orange + p.button
  }

  /** `total`: the sum of all six counters, i.e. the useful ones plus the idle one. */
  function Total(p: Profilers): (r: nat)
    ensures r == Useful(p) + p.idle
    ensures Useful(p) <= r
  {
    p.red + p.green + p.blue + p.orange + p.button + p.idle
  }

  /** The value held by `cpu_load`: a percentage, or the NaN of a 0/0 division. */
  datatype LoadValue = Percent(value: real) | NotANumber

  /**
   * `(float) 100 * useful / total` in exact arithmetic. There is no guard on
   * `total == 0`; since `useful <= total` that case is `0.0 / 0.0`, a NaN.
   * Otherwise the result is the percentage `p` with `p * total == 100 * useful`,
   * which lies in [0, 100].
   */
  function Quotient(useful: nat, total: nat): (r: LoadValue)
    requires useful <= total
    ensures r.NotANumber? <==> total == 0
    ensures r.Percent? ==> r.value * total as real == 100.0 * useful as real
    ensures r.Percent? ==> 0.0 <= r.value <= 100.0
  {
    if total == 0 then NotANumber else Percent(100.0 * useful as real / total as real)
  }

  /** With some activity counted, the load is 100 exactly when the idle hook never ran. */
  lemma FullLoadIffNoIdle(p: Profilers)
    requires Total(p) > 0
    ensures Quotient(Useful(p), Total(p)) == Percent(100.0) <==> p.idle == 0
  {
    var r := Quotient(Useful(p), Total(p));
    if r == Percent(100.0) {
      assert 100.0 * Total(p) as real == 100.0 * Useful(p) as real;
    }
  }

  /** With some activity counted, the load is 0 exactly when only the idle hook ran. */
  lemma ZeroLoadIffOnlyIdle(p: Profilers)
    requires Total(p) > 0
    ensures Quotient(Useful(p), Total(p)) == Percent(0.0) <==> Useful(p) == 0
  {
  }

  /** Counters (10, 10, 10, 10, 10, 10): useful 50, total 60, load 250/3 (about 83.33). */
  lemma EqualCountersScenario()
    ensures Useful(Profilers(10, 10, 10, 10, 10, 10)) == 50
    ensures Total(Profilers(10, 10, 10, 10, 10, 10)) == 60
    ensures Quotient(50, 60) == Percent(250.0 / 3.0)
  {
  }

  /** All six counters at zero: the unguarded division yields NaN, not 0. */
  lemma NoActivityIsNaN()
    ensures Quotient(Useful(Cleared), Total(Cleared)) == NotANumber
  {
  }
}
