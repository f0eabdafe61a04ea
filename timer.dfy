/** `sim::Timer`: a stopwatch that counts seconds up to a threshold. Agents keep
    one per cadence (sense, think) by value. */
module Timers {

  datatype Timer = Timer(timePassed: real, maxTime: real)

  /** The default-constructed timer: nothing elapsed, a one-second threshold. */
  const DefaultTimer: Timer := Timer(0.0, 1.0)

  /** `Timer::Update`: `dt` more seconds have passed; the threshold is kept. */
  function Update(t: Timer, dt: real): (r: Timer)
    ensures r.maxTime == t.maxTime
    ensures r.timePassed - t.timePassed == dt
  {
    t.(timePassed := t.timePassed + dt)
  }

  /** `Timer::Reset`: the elapsed time starts over; the threshold is kept. */
  function Reset(t: Timer): (r: Timer)
    ensures r.maxTime == t.maxTime
    ensures r.timePassed == 0.0
    ensures t.maxTime > 0.0 ==> !IsDone(r)
  {
    t.(timePassed := 0.0)
  }

  /** `Timer::IsDone`: the threshold has been reached. */
  predicate IsDone(t: Timer)
  {
    t.timePassed >= t.maxTime
  }

  /** Starting from a reset, a timer with a positive threshold is done exactly when
      the time fed to it adds up to the threshold: Update accumulates. */
  lemma {:induction false} UpdatesAccumulate(t: Timer, dts: seq<real>)
    ensures Updates(t, dts).maxTime == t.maxTime
    ensures Updates(t, dts).timePassed == t.timePassed + Sum(dts)
    ensures IsDone(Updates(Reset(t), dts)) <==> Sum(dts) >= t.maxTime
    decreases |dts|
  {
    if dts != [] {
      UpdatesAccumulate(Update(t, dts[0]), dts[1..]);
      UpdatesAccumulate(Update(Reset(t), dts[0]), dts[1..]);
    }
  }

  /** The timer after a series of Updates. */
  function Updates(t: Timer, dts: seq<real>): Timer
    decreases |dts|
  {
    if dts == [] then t else Updates(Update(t, dts[0]), dts[1..])
  }

  function Sum(dts: seq<real>): real
  {
    if dts == [] then 0.0 else dts[0] + Sum(dts[1..])
  }
}
