/** A tree: felled for a fixed amount of wood, regrows after a time that
    grows with the number of times it has been felled, up to a ceiling. */
module Woods {
  import opened Common

  const BaseRegenerationTime: real := 45.0
  const MaxRegenerationTime: real := 180.0
  /** Wood obtained per harvest. */
  const WoodAmount: int := 5

  /** Regrowth time after the given number of harvests. */
  function RequiredTime(harvestCount: int): (t: real)
    ensures harvestCount >= 0 ==> BaseRegenerationTime <= t
    ensures t <= MaxRegenerationTime
    ensures t == MaxRegenerationTime || t == BaseRegenerationTime + harvestCount as real * 10.0
  {
    Min(BaseRegenerationTime + harvestCount as real * 10.0, MaxRegenerationTime)
  }

  /** More harvests never shorten the regrowth time. */
  lemma RequiredTimeMonotone(m: int, n: int)
    requires m <= n
    ensures RequiredTime(m) <= RequiredTime(n)
  {
  }

  class Wood {
    const position: Vec
    var isConsumed: bool
    var regenerationTimer: real
    var harvestCount: nat

    ghost predicate Valid()
      reads this
    {
      regenerationTimer >= 0.0 && (!isConsumed ==> regenerationTimer == 0.0)
    }

    constructor (position: Vec)
      ensures Valid()
      ensures this.position == position
      ensures !isConsumed && regenerationTimer == 0.0 && harvestCount == 0
    {
      this.position := position;
      isConsumed := false;
      regenerationTimer := 0.0;
      harvestCount := 0;
    }

    method Update(dt: real)
      requires Valid() && dt >= 0.0
      modifies this
      ensures Valid()
      ensures harvestCount == old(harvestCount)
      // a standing tree is untouched
      ensures !old(isConsumed) ==> !isConsumed && regenerationTimer == old(regenerationTimer)
      ensures old(isConsumed) ==>
        (isConsumed <==> old(regenerationTimer) + dt < RequiredTime(old(harvestCount)))
      ensures old(isConsumed) && isConsumed ==> regenerationTimer == old(regenerationTimer) + dt
      // no tree regrows before the base time has accumulated
      ensures old(isConsumed) && old(regenerationTimer) + dt < BaseRegenerationTime ==> isConsumed
    {
      if isConsumed {
        regenerationTimer := regenerationTimer + dt;
        var requiredTime := RequiredTime(harvestCount);
        if regenerationTimer >= requiredTime {
          isConsumed := false;
          regenerationTimer := 0.0;
        }
      }
    }

    /** Fells a standing tree; a stump yields nothing and is left alone. */
    method Harvest() returns (amount: int)
      requires Valid()
      modifies this
      ensures Valid()
      ensures harvestCount >= old(harvestCount)
      ensures old(isConsumed) ==>
        amount == 0 && isConsumed && regenerationTimer == old(regenerationTimer)
        && harvestCount == old(harvestCount)
      ensures !old(isConsumed) ==>
        amount == WoodAmount && isConsumed && regenerationTimer == 0.0
        && harvestCount == old(harvestCount) + 1
    {
      if !isConsumed {
        isConsumed := true;
        harvestCount := harvestCount + 1;
        return WoodAmount;
      }
      return 0;
    }
  }
}
