/** A berry bush: harvested by agents, regrows after a delay that grows
    with recent harvest pressure, while the pressure itself decays. */
module Foods {
  import opened Common

  /** Energy an agent gains from one harvest. */
  const EnergyValue: real := 50.0
  /** Seconds to regrow at zero pressure. */
  const RegenerationTime: real := 30.0
  /** Pressure lost per second. */
  const PressureDecay: real := 0.1

  /** Regrowth time at the given harvest pressure. */
  function EffectiveRegenTime(pressure: real): (t: real)
    ensures pressure >= 0.0 ==> t >= RegenerationTime
    ensures pressure == 0.0 ==> t == RegenerationTime
  {
    RegenerationTime * (1.0 + pressure * 0.5)
  }

  /** Overharvesting never speeds regrowth up. */
  lemma RegenTimeMonotone(p: real, q: real)
    requires p <= q
    ensures EffectiveRegenTime(p) <= EffectiveRegenTime(q)
  {
  }

  /** Each unit of harvest pressure adds 15 seconds to regrowth. */
  lemma {:induction false} HarvestAddsRegenTime(p: real)
    ensures EffectiveRegenTime(p + 1.0) == EffectiveRegenTime(p) + 15.0
  {
  }

  /** Pressure after dt seconds of linear decay, floored at zero. */
  function DecayedPressure(pressure: real, dt: real): (p: real)
    ensures p >= 0.0
    ensures p >= pressure - PressureDecay * dt
    ensures p == 0.0 || p == pressure - PressureDecay * dt
    ensures dt >= 0.0 && pressure >= 0.0 ==> p <= pressure
  {
    Max(0.0, pressure - PressureDecay * dt)
  }

  class Food {
    const position: Vec
    var consumed: bool
    /** Seconds accumulated since the last Consume, while consumed. */
    var regenerationTimer: real
    var harvestPressure: real

    ghost predicate Valid()
      reads this
    {
      && harvestPressure >= 0.0
      && regenerationTimer >= 0.0
      && (!consumed ==> regenerationTimer == 0.0)
    }

    constructor (position: Vec)
      ensures Valid()
      ensures this.position == position
      ensures !consumed && regenerationTimer == 0.0 && harvestPressure == 0.0
    {
      this.position := position;
      consumed := false;
      regenerationTimer := 0.0;
      harvestPressure := 0.0;
    }

    /** Marks the bush harvested. There is no check that it was available:
        consuming a consumed bush restarts its timer and adds pressure again. */
    method Consume()
      requires Valid()
      modifies this
      ensures Valid()
      ensures consumed && regenerationTimer == 0.0
      ensures harvestPressure == old(harvestPressure) + 1.0
    {
      consumed := true;
      regenerationTimer := 0.0;
      harvestPressure := harvestPressure + 1.0;
    }

    /** Advances regrowth by dt seconds, then decays the pressure. */
    method Update(dt: real)
      requires Valid() && dt >= 0.0
      modifies this
      ensures Valid()
      ensures harvestPressure == DecayedPressure(old(harvestPressure), dt)
      // an available bush stays available
      ensures !old(consumed) ==> !consumed && regenerationTimer == 0.0
      // a consumed bush regrows exactly when its timer reaches the pressure-scaled time
      ensures old(consumed) ==>
        (consumed <==> old(regenerationTimer) + dt < EffectiveRegenTime(old(harvestPressure)))
      ensures old(consumed) && consumed ==> regenerationTimer == old(regenerationTimer) + dt
      ensures old(consumed) && !consumed ==> regenerationTimer == 0.0
      // whatever the pressure, a bush stays consumed for 30 seconds of accumulated time
      ensures old(consumed) && old(regenerationTimer) + dt < RegenerationTime ==> consumed
    {
      if consumed {
        regenerationTimer := regenerationTimer + dt;
        var effectiveRegenTime := EffectiveRegenTime(harvestPressure);
        if regenerationTimer >= effectiveRegenTime {
          consumed := false;
          regenerationTimer := 0.0;
        }
      }
      harvestPressure := DecayedPressure(harvestPressure, dt);
    }
  }
}
