/** Time-point navigation of the main control panel. Time points are numbered `1..N`,
    `N` being the number of time points; step forward and step back wrap around, and the
    replay timer advances a counter of its own. */
module ControlPanel {

  /** `onStepForwardClicked`'s choice: `t + 1`, or 1 past the last time point. */
  function StepForward(t: int, n: int): (r: int)
    ensures 1 <= t <= n ==> 1 <= r <= n
    ensures r == 1 || r == t + 1
  {
    if t + 1 > n then 1 else t + 1
  }

  /** `onStepbackClicked`'s choice: `t - 1`, or the last time point before the first. */
  function StepBack(t: int, n: int): (r: int)
    ensures 1 <= t <= n ==> 1 <= r <= n
    ensures r == n || r == t - 1
  {
    if t - 1 < 1 then n else t - 1
  }

  /** Stepping back undoes stepping forward. */
  lemma BackAfterForward(t: int, n: int)
    requires 1 <= t <= n
    ensures StepBack(StepForward(t, n), n) == t
  {
  }

  /** Stepping forward undoes stepping back. */
  lemma ForwardAfterBack(t: int, n: int)
    requires 1 <= t <= n
    ensures StepForward(StepBack(t, n), n) == t
  {
  }

  /** `k` forward steps from `t`. */
  function Forward(t: int, n: int, k: nat): int
    decreases k
  {
    if k == 0 then t else Forward(StepForward(t, n), n, k - 1)
  }

  lemma {:induction false} ForwardAdd(t: int, n: int, a: nat, b: nat)
    ensures Forward(t, n, a + b) == Forward(Forward(t, n, a), n, b)
    decreases a
  {
    if a > 0 {
      ForwardAdd(StepForward(t, n), n, a - 1, b);
    }
  }

  /** Below the last time point, `k` steps forward just add `k`. */
  lemma {:induction false} ForwardNoWrap(t: int, n: int, k: nat)
    requires t + k <= n
    ensures Forward(t, n, k) == t + k
    decreases k
  {
    if k > 0 {
      ForwardNoWrap(t + 1, n, k - 1);
    }
  }

  /** `N` forward steps come back to the starting time point. */
  lemma ForwardCycle(t: int, n: int)
    requires 1 <= t <= n
    ensures Forward(t, n, n) == t
  {
    ForwardAdd(t, n, n - t, t);
    ForwardNoWrap(t, n, n - t);
    ForwardNoWrap(1, n, t - 1);
  }

  /** Every state reached by forward steps from a time point is a time point. */
  lemma {:induction false} ForwardInRange(t: int, n: int, k: nat)
    requires 1 <= t <= n
    ensures 1 <= Forward(t, n, k) <= n
    decreases k
  {
    if k > 0 {
      ForwardInRange(StepForward(t, n), n, k - 1);
    }
  }

  /** The state `MainControlPanel` keeps across renders: the `IsReplayOn` state and the
      `activeTPRef` counter of the replay timer. The handlers that only call
      `props.setActiveTP` return the value they pass to it. */
  class MainControlPanel {
    var isReplayOn: bool
    var activeTPRef: int

    /** The first render: replay off, the counter seeded from `props.activeTP`. */
    constructor (activeTP: int)
      ensures !isReplayOn && activeTPRef == activeTP
    {
      isReplayOn := false;
      activeTPRef := activeTP;
    }

    /** `onReplayTimerTick`: the counter's successor, wrapping to 1, is both passed to
        `props.setActiveTP` and stored in the counter. */
    method OnReplayTimerTick(numberOfTPs: int) returns (newTP: int)
      modifies this
      ensures newTP == StepForward(old(activeTPRef), numberOfTPs)
      ensures activeTPRef == newTP && isReplayOn == old(isReplayOn)
    {
      newTP := StepForward(activeTPRef, numberOfTPs);
      activeTPRef := newTP;
    }

    /** `onStepbackClicked`: leaves the replay counter alone. */
    method OnStepbackClicked(activeTP: int, numberOfTPs: int) returns (newTP: int)
      ensures newTP == StepBack(activeTP, numberOfTPs)
      ensures 1 <= activeTP <= numberOfTPs ==> 1 <= newTP <= numberOfTPs
    {
      newTP := StepBack(activeTP, numberOfTPs);
    }

    /** `onPlayClicked`: toggles replay. */
    method OnPlayClicked()
      modifies this
      ensures isReplayOn == !old(isReplayOn) && activeTPRef == old(activeTPRef)
    {
      isReplayOn := !isReplayOn;
    }

    /** `onStepForwardClicked`: leaves the replay counter alone. */
    method OnStepForwardClicked(activeTP: int, numberOfTPs: int) returns (newTP: int)
      ensures newTP == StepForward(activeTP, numberOfTPs)
      ensures 1 <= activeTP <= numberOfTPs ==> 1 <= newTP <= numberOfTPs
    {
      newTP := StepForward(activeTP, numberOfTPs);
    }

    /** `handleSliderTPChange`: forwards the slider's value unchanged. */
    method HandleSliderTPChange(value: int) returns (newTP: int)
      ensures newTP == value
    {
      newTP := value;
    }
  }
}
