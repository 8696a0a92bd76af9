/** A household: stores food and water for its owner and produces more
    every ten seconds according to the owner's specialization. */
module Homes {
  import opened Common

  const MaxStorage: real := 200.0
  const ProductionInterval: real := 10.0
  const ProductionAmount: real := 15.0

  /** A stock after adding amount, saturating at MaxStorage. */
  function Stored(stock: real, amount: real): (r: real)
    ensures r <= MaxStorage
    ensures r <= stock + amount
    ensures r == MaxStorage || r == stock + amount
    ensures amount >= 0.0 && stock <= MaxStorage ==> stock <= r
  {
    Min(stock + amount, MaxStorage)
  }

  /** What a withdrawal hands out: the request, or all that is left. */
  function Withdrawn(requested: real, stock: real): (r: real)
    ensures r <= requested && r <= stock
    ensures r == requested || r == stock
    ensures requested >= 0.0 && stock >= 0.0 ==> r >= 0.0
  {
    Min(requested, stock)
  }

  /** A production step on one stock: nothing when already full. */
  function Produced(stock: real, amount: real): (r: real)
    ensures stock >= MaxStorage ==> r == stock
    ensures stock < MaxStorage ==> r == Stored(stock, amount)
  {
    if stock < MaxStorage then Stored(stock, amount) else stock
  }

  /** Storing x then asking for req: the amount handed out is the lesser of
      the request and the stock, the stock never goes negative, and without
      saturation nothing is lost. */
  lemma StoreThenWithdraw(stock: real, x: real, req: real)
    requires 0.0 <= stock <= MaxStorage && x >= 0.0 && req >= 0.0
    ensures var s := Stored(stock, x);
            var w := Withdrawn(req, s);
            0.0 <= w <= req && 0.0 <= s - w
            && (stock + x <= MaxStorage ==> s - w == stock + x - w)
            && (w < req ==> s - w == 0.0)
  {
  }

  class Home {
    const position: Vec
    var storedFood: real
    var storedWater: real
    var productionTimer: real

    ghost predicate Valid()
      reads this
    {
      && 0.0 <= storedFood <= MaxStorage
      && 0.0 <= storedWater <= MaxStorage
      && productionTimer >= 0.0
    }

    constructor (position: Vec)
      ensures Valid()
      ensures this.position == position
      ensures storedFood == 0.0 && storedWater == 0.0 && productionTimer == 0.0
    {
      this.position := position;
      storedFood := 0.0;
      storedWater := 0.0;
      productionTimer := 0.0;
    }

    /** One tick of home production; owner is the current owner's
        specialization, None when the home has no owner. */
    method Update(dt: real, owner: Option<Specialization>)
      requires Valid() && dt >= 0.0
      modifies this
      ensures Valid()
      ensures owner.None? ==>
        storedFood == old(storedFood) && storedWater == old(storedWater)
        && productionTimer == old(productionTimer)
      ensures owner.Some? && old(productionTimer) + dt < ProductionInterval ==>
        productionTimer == old(productionTimer) + dt
        && storedFood == old(storedFood) && storedWater == old(storedWater)
      ensures owner.Some? && old(productionTimer) + dt >= ProductionInterval ==>
        productionTimer == 0.0
        && storedFood == Produced(old(storedFood), FoodYield(owner.value))
        && storedWater == Produced(old(storedWater), WaterYield(owner.value))
    {
      if owner.None? {
        return;
      }
      productionTimer := productionTimer + dt;
      if productionTimer >= ProductionInterval {
        productionTimer := 0.0;
        match owner.value
        case FoodGatherer =>
          if storedFood < MaxStorage {
            storedFood := Stored(storedFood, ProductionAmount);
          }
        case WaterGatherer =>
          if storedWater < MaxStorage {
            storedWater := Stored(storedWater, ProductionAmount);
          }
        case Generalist =>
          if storedFood < MaxStorage {
            storedFood := Stored(storedFood, ProductionAmount * 0.5);
          }
          if storedWater < MaxStorage {
            storedWater := Stored(storedWater, ProductionAmount * 0.5);
          }
      }
    }

    /** Whether both amounts fit without saturating. */
    function CanStore(food: real, water: real): (b: bool)
      reads this
      ensures b <==> Stored(storedFood, food) == storedFood + food
                     && Stored(storedWater, water) == storedWater + water
    {
      storedFood + food <= MaxStorage && storedWater + water <= MaxStorage
    }

    /** Adds both amounts, each stock saturating at MaxStorage. */
    method StoreResources(food: real, water: real)
      requires Valid()
      modifies this
      ensures food >= 0.0 && water >= 0.0 ==> Valid()
      ensures storedFood == Stored(old(storedFood), food)
      ensures storedWater == Stored(old(storedWater), water)
      ensures productionTimer == old(productionTimer)
    {
      storedFood := Stored(storedFood, food);
      storedWater := Stored(storedWater, water);
    }

    /** Hands out at most what was asked and at most what is stored. */
    method WithdrawResources(requestedFood: real, requestedWater: real)
      returns (food: real, water: real)
      requires Valid()
      modifies this
      ensures requestedFood >= 0.0 && requestedWater >= 0.0 ==> Valid()
      ensures food == Withdrawn(requestedFood, old(storedFood))
      ensures water == Withdrawn(requestedWater, old(storedWater))
      ensures storedFood == old(storedFood) - food
      ensures storedWater == old(storedWater) - water
      ensures productionTimer == old(productionTimer)
    {
      food := Withdrawn(requestedFood, storedFood);
      water := Withdrawn(requestedWater, storedWater);
      storedFood := storedFood - food;
      storedWater := storedWater - water;
    }
  }

  /** Food added per production step: full rate for farmers, half for
      generalists, none for well diggers. */
  function FoodYield(spec: Specialization): (a: real)
    ensures 0.0 <= a <= ProductionAmount
    ensures spec == WaterGatherer <==> a == 0.0
  {
    match spec
    case FoodGatherer => ProductionAmount
    case WaterGatherer => 0.0
    case Generalist => ProductionAmount * 0.5
  }

  /** Water added per production step, the mirror of FoodYield. */
  function WaterYield(spec: Specialization): (a: real)
    ensures 0.0 <= a <= ProductionAmount
    ensures spec == FoodGatherer <==> a == 0.0
    ensures FoodYield(spec) + a == ProductionAmount
  {
    match spec
    case WaterGatherer => ProductionAmount
    case FoodGatherer => 0.0
    case Generalist => ProductionAmount * 0.5
  }
}
