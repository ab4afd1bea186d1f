/**
 * The rate-limit gate every request passes through: a two-field state
 * (`is_on`, `delay_sec`) and a gated call that sleeps `delay_sec` seconds
 * when on and then runs the work once. Sleeping is not performed; it is
 * recorded as a step of the call.
 */
module Throttle {

  /** Seconds slept before each request unless changed: the service's rate limit. */
  const DefaultDelaySec: int := 2

  datatype Throttle = Throttle(isOn: bool, delaySec: int)

  /** One observable step of a gated call: a sleep, or the call of the work itself. */
  datatype Step = Sleep(seconds: nat) | Call

  /**
   * A gated call either ran (with its steps and the work's value) or was
   * stopped by `time.sleep`, which raises ValueError for a negative length.
   */
  datatype Gated<T> = Done(steps: seq<Step>, value: T) | SleepRejected

  /** The state of a newly constructed throttle. */
  function New(): (t: Throttle)
    ensures t.isOn
    ensures t.delaySec == 2
  {
    Throttle(true, DefaultDelaySec)
  }

  function Enable(t: Throttle): (r: Throttle)
    ensures r.isOn
    ensures r.delaySec == t.delaySec
  {
    if !t.isOn then t.(isOn := true) else t
  }

  function Disable(t: Throttle): (r: Throttle)
    ensures !r.isOn
    ensures r.delaySec == t.delaySec
  {
    if t.isOn then t.(isOn := false) else t
  }

  /** `set_delay_sec(sec)`: any integer is accepted, a negative one included. */
  function SetDelaySec(t: Throttle, sec: int := DefaultDelaySec): (r: Throttle)
    ensures r.delaySec == sec
    ensures r.isOn == t.isOn
  {
    t.(delaySec := sec)
  }

  /** True when a gated call gets past its sleep. */
  predicate Admits(t: Throttle) {
    !t.isOn || t.delaySec >= 0
  }

  /** The number of times the work is called in a sequence of steps. */
  function Calls(steps: seq<Step>): nat {
    if steps == [] then 0 else (if steps[0].Call? then 1 else 0) + Calls(steps[1..])
  }

  /** The seconds slept in a sequence of steps. */
  function Slept(steps: seq<Step>): nat {
    if steps == [] then 0 else (if steps[0].Sleep? then steps[0].seconds else 0) + Slept(steps[1..])
  }

  /**
   * The gated call: when the throttle is on it sleeps `delay_sec` first,
   * then calls the work exactly once as its last step and hands back the
   * work's value untouched.
   */
  function Run<T>(t: Throttle, work: () -> T): (g: Gated<T>)
    ensures g.Done? <==> Admits(t)
    ensures g.Done? ==> g.value == work()
    ensures g.Done? ==> Calls(g.steps) == 1 && g.steps[|g.steps| - 1] == Call
    ensures g.Done? ==> Slept(g.steps) == (if t.isOn then t.delaySec else 0)
  {
    if t.isOn then
      if t.delaySec < 0 then SleepRejected else Done([Sleep(t.delaySec), Call], work())
    else
      Done([Call], work())
  }

  lemma EnableIdempotent(t: Throttle)
    ensures Enable(Enable(t)) == Enable(t)
    ensures !t.isOn ==> Enable(t) == Throttle(true, t.delaySec)
    ensures t.isOn ==> Enable(t) == t
  {
  }

  lemma DisableIdempotent(t: Throttle)
    ensures Disable(Disable(t)) == Disable(t)
    ensures t.isOn ==> Disable(t) == Throttle(false, t.delaySec)
    ensures !t.isOn ==> Disable(t) == t
  {
  }

  /** Toggling never touches the delay, and the last toggle decides the state. */
  lemma TogglesCommuteWithDelay(t: Throttle, sec: int)
    ensures SetDelaySec(Enable(t), sec) == Enable(SetDelaySec(t, sec))
    ensures SetDelaySec(Disable(t), sec) == Disable(SetDelaySec(t, sec))
    ensures Enable(Disable(t)) == t.(isOn := true)
    ensures Disable(Enable(t)) == t.(isOn := false)
  {
  }

  /** A disabled gate calls the work at once, without sleeping. */
  lemma DisabledRunsImmediately<T>(t: Throttle, work: () -> T)
    requires !t.isOn
    ensures Run(t, work) == Done([Call], work())
  {
  }
}
