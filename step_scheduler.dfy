/** How many collision steps one simulation update is split into: the frame's delta time
    divided by the largest stable step, rounded up. Times are modelled as exact reals. */
module StepScheduler {

  /** The largest step the simulation is asked to take in one go: a sixtieth of a second. */
  const DefaultMaxDeltaTime: real := 1.0 / 60.0

  /** The least integer that is not below `q`. */
  function Ceil(q: real): (c: int)
    ensures q <= c as real < q + 1.0
  {
    if q.Floor as real == q then q.Floor else q.Floor + 1
  }

  /** Multiplying by a positive real keeps a strict order. */
  lemma MulStrict(a: real, b: real, m: real)
    requires m > 0.0 && a < b
    ensures a * m < b * m
  {
  }

  /** Scaling the bounds of the ceiling of `deltaTick / maxDeltaTime` back by `maxDeltaTime`. */
  lemma CeilScaled(deltaTick: real, maxDeltaTime: real)
    requires maxDeltaTime > 0.0
    ensures Ceil(deltaTick / maxDeltaTime) as real * maxDeltaTime >= deltaTick
    ensures (Ceil(deltaTick / maxDeltaTime) - 1) as real * maxDeltaTime < deltaTick
  {
    var q := deltaTick / maxDeltaTime;
    var c := Ceil(q);
    assert q * maxDeltaTime == deltaTick;
    if c as real > q {
      MulStrict(q, c as real, maxDeltaTime);
    }
    assert (c - 1) as real < q;
    MulStrict((c - 1) as real, q, maxDeltaTime);
    assert (c - 1) as real * maxDeltaTime < q * maxDeltaTime;
    assert (c - 1) as real * maxDeltaTime < deltaTick;
  }

  /** The step count for a delta time: enough steps of `maxDeltaTime` to cover it, and no
      step more than needed. */
  function StepCount(deltaTick: real, maxDeltaTime: real): (steps: nat)
    requires deltaTick >= 0.0 && maxDeltaTime > 0.0
    ensures steps as real * maxDeltaTime >= deltaTick
    ensures steps > 0 ==> (steps - 1) as real * maxDeltaTime < deltaTick
  {
    CeilScaled(deltaTick, maxDeltaTime);
    Ceil(deltaTick / maxDeltaTime)
  }

  /** Any positive delta time takes at least one step. */
  lemma StepCountPositive(deltaTick: real, maxDeltaTime: real)
    requires deltaTick > 0.0 && maxDeltaTime > 0.0
    ensures StepCount(deltaTick, maxDeltaTime) >= 1
  {
  }

  /** A zero delta time takes no step at all. */
  lemma StepCountZero(maxDeltaTime: real)
    requires maxDeltaTime > 0.0
    ensures StepCount(0.0, maxDeltaTime) == 0
  {
  }

  /** The step count is the least number of steps of `maxDeltaTime` that covers the delta time. */
  lemma StepCountMinimal(deltaTick: real, maxDeltaTime: real, k: nat)
    requires deltaTick >= 0.0 && maxDeltaTime > 0.0
    requires k as real * maxDeltaTime >= deltaTick
    ensures StepCount(deltaTick, maxDeltaTime) <= k
  {
  }

  /** A frame of 0.0183 seconds at the default bound is split into two steps. */
  lemma StepCountExample()
    ensures StepCount(0.0183, DefaultMaxDeltaTime) == 2
  {
  }
}
