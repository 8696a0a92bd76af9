/** A drinking spot: used by agents, refills after a delay that grows with
    recent use, while the use pressure itself decays. */
module Waters {
  import opened Common

  /** Hydration an agent gains from one drink. */
  const HydrationValue: real := 40.0
  /** Seconds to refill at zero pressure. */
  const RegenerationTime: real := 20.0
  /** Pressure lost per second. */
  const PressureDecay: real := 0.15

  /** Refill time at the given pressure. */
  function EffectiveRegenTime(pressure: real): (t: real)
    ensures pressure >= 0.0 ==> t >= RegenerationTime
    ensures pressure == 0.0 ==> t == RegenerationTime
  {
    RegenerationTime * (1.0 + pressure * 0.3)
  }

  /** Heavy use never makes a spot refill faster. */
  lemma RegenTimeMonotone(p: real, q: real)
    requires p <= q
    ensures EffectiveRegenTime(p) <= EffectiveRegenTime(q)
  {
  }

  /** Pressure after dt seconds of linear decay, floored at zero. */
  function DecayedPressure(pressure: real, dt: real): (p: real)
    ensures p >= 0.0
    ensures p >= pressure - PressureDecay * dt
    ensures p == 0.0 || p == pressure - PressureDecay * dt
    ensures dt >= 0.0 && pressure >= 0.0 ==> p <= pressure
  {
    Max(0.0, pressure - PressureDecay * dt)
  }

  class Water {
    const position: Vec
    var consumed: bool
    /** Seconds accumulated since the last Consume, while consumed. */
    var regenerationTimer: real
    var harvestPressure: real

    ghost predicate Valid()
      reads this
    {
      && harvestPressure >= 0.0
      && regenerationTimer >= 0.0
      && (!consumed ==> regenerationTimer == 0.0)
    }

    constructor (position: Vec)
      ensures Valid()
      ensures this.position == position
      ensures !consumed && regenerationTimer == 0.0 && harvestPressure == 0.0
    {
      this.position := position;
      consumed := false;
      regenerationTimer := 0.0;
      harvestPressure := 0.0;
    }

    /** Marks the spot used, without checking that it was available. */
    method Consume()
      requires Valid()
      modifies this
      ensures Valid()
      ensures consumed && regenerationTimer == 0.0
      ensures harvestPressure == old(harvestPressure) + 1.0
    {
      consumed := true;
      regenerationTimer := 0.0;
      harvestPressure := harvestPressure + 1.0;
    }

    /** Advances the refill by dt seconds, then decays the pressure. */
    method Update(dt: real)
      requires Valid() && dt >= 0.0
      modifies this
      ensures Valid()
      ensures harvestPressure == DecayedPressure(old(harvestPressure), dt)
      // an available spot changes only by pressure decay
      ensures !old(consumed) ==> !consumed && regenerationTimer == old(regenerationTimer)
      ensures old(consumed) ==>
        (consumed <==> old(regenerationTimer) + dt < EffectiveRegenTime(old(harvestPressure)))
      ensures old(consumed) && consumed ==> regenerationTimer == old(regenerationTimer) + dt
      ensures old(consumed) && !consumed ==> regenerationTimer == 0.0
      ensures old(consumed) && old(regenerationTimer) + dt < RegenerationTime ==> consumed
    {
      if consumed {
        regenerationTimer := regenerationTimer + dt;
        var effectiveRegenTime := EffectiveRegenTime(harvestPressure);
        if regenerationTimer >= effectiveRegenTime {
          consumed := false;
          regenerationTimer := 0.0;
        }
      }
      harvestPressure := DecayedPressure(harvestPressure, dt);
    }
  }
}
