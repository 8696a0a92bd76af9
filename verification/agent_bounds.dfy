/** The caps on an agent's needs and bank, and the ranges an agent's fields
    keep between steps. Kept apart from the agent itself so that the
    invariant reads as one fact wherever a step assumes or restores it. */
module AgentBounds {
  const MaxEnergy: real := 100.0
  const MaxHydration: real := 100.0
  /** Cap on the food and the water an agent carries for trade. */
  const MaxStorage: real := 100.0

  /** Needs at most full, bank within its cap, sleepiness, well-being and
      the three traits in [0, 1], every trust value in [0, 1], age and the
      gathering timer non-negative. Energy and hydration have no lower
      bound: a sleeping step drains them without flooring them at zero. */
  predicate InRanges<K>(energy: real, hydration: real, storedFood: real, storedWater: real,
                        sleepiness: real, wellBeing: real, generosity: real, bravery: real,
                        sociability: real, relationships: map<K, real>, age: real, gatheringTimer: real)
  {
    && energy <= MaxEnergy && hydration <= MaxHydration
    && 0.0 <= storedFood <= MaxStorage && 0.0 <= storedWater <= MaxStorage
    && 0.0 <= sleepiness <= 1.0 && 0.0 <= wellBeing <= 1.0
    && 0.0 <= generosity <= 1.0 && 0.0 <= bravery <= 1.0 && 0.0 <= sociability <= 1.0
    && (forall a :: a in relationships ==> 0.0 <= relationships[a] <= 1.0)
    && age >= 0.0 && gatheringTimer >= 0.0
  }
}
