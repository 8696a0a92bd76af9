/** One simulated person: needs, banked stock, trust ledger, life cycle and
    the per-tick decision step. Geometry that needs square roots (steering,
    speed cap, velocity) is not part of this model; every radius test is a
    squared-distance comparison. */
module Agents {
  import opened Common
  import Foods
  import Waters
  import Homes
  import opened AgentBounds

  const ChildhoodDuration: real := 172800.0
  const AdulthoodDuration: real := 604800.0
  const MaxLifespan: real := 1209600.0

  const InitialTrust: real := 0.5
  const HelpReward: real := 0.3
  const LearningInterval: real := 15.0
  const GatheringDuration: real := 1.5

  datatype LifeStage = Child | Adult | Elder

  /** Position of a stage in the Child, Adult, Elder order. */
  function StageRank(s: LifeStage): nat
  {
    match s
    case Child => 0
    case Adult => 1
    case Elder => 2
  }

  /** Life stage as a function of age alone. */
  function StageOf(age: real): (s: LifeStage)
    ensures s == Child <==> age < ChildhoodDuration
    ensures s == Elder <==> age >= ChildhoodDuration + AdulthoodDuration
  {
    if age < ChildhoodDuration then Child
    else if age < ChildhoodDuration + AdulthoodDuration then Adult
    else Elder
  }

  /** Ageing only moves forward through the stages. */
  lemma StageNeverReverts(a: real, b: real)
    requires a <= b
    ensures StageRank(StageOf(a)) <= StageRank(StageOf(b))
  {
  }

  /** Why an agent dies at the end of its step, if it does: old age is
      checked first, then the exhaustion of both energy and hydration. */
  function DeathCauseOf(age: real, energy: real, hydration: real): (c: Option<string>)
    ensures age >= MaxLifespan ==> c == Some("Old Age")
    ensures age < MaxLifespan && energy <= 0.0 && hydration <= 0.0 ==> c == Some("Starvation")
    ensures c.None? <==> age < MaxLifespan && (energy > 0.0 || hydration > 0.0)
  {
    if age >= MaxLifespan then Some("Old Age")
    else if energy <= 0.0 && hydration <= 0.0 then Some("Starvation")
    else None
  }

  /** Outcome of a harvest: the stat after eating and the bank after storing. */
  datatype Gathered = Gathered(stat: real, stored: real)

  /** A harvest of gain units: the stat is filled first, then the surplus
      is banked up to cap. */
  function FillThenBank(stat: real, max: real, gain: real, stored: real, cap: real): (g: Gathered)
    requires gain >= 0.0
    ensures stat <= max ==> g.stat <= max
    ensures stored <= cap ==> g.stored <= cap
    ensures g.stat >= stat && g.stored >= stored
    // nothing is banked until the stat is full
    ensures g.stored > stored ==> g.stat >= max
    // nothing is created, and nothing is lost unless both are full
    ensures (g.stat - stat) + (g.stored - stored) <= gain
    ensures stat <= max && stored <= cap ==>
      (g.stat - stat) + (g.stored - stored) == gain || (g.stat == max && g.stored == cap)
  {
    var eaten := if stat < max then Min(gain, max - stat) else 0.0;
    var rest := gain - eaten;
    var banked := if rest > 0.0 && stored < cap then Min(stored + rest, cap) else stored;
    Gathered(stat + eaten, banked)
  }

  /** A level after a drain, floored at zero. */
  function Drained(level: real, amount: real): (r: real)
    ensures r >= 0.0
    ensures r == 0.0 || r == level - amount
    ensures r >= level - amount
    ensures amount >= 0.0 && level >= 0.0 ==> r <= level
  {
    var l := level - amount;
    if l < 0.0 then 0.0 else l
  }

  /** Trust raised by a reward, capped at full trust. */
  function Raised(trust: real, reward: real): (t: real)
    ensures t <= 1.0
    ensures t == 1.0 || t == trust + reward
    ensures reward >= 0.0 && trust <= 1.0 ==> trust <= t
  {
    Min(trust + reward, 1.0)
  }

  /** The trust an agent would use for other: the stored value, or the
      default for a stranger. */
  function TrustOf(relationships: map<Agent, real>, other: Agent): real
  {
    if other in relationships then relationships[other] else InitialTrust
  }

  /** The ledger after a lookup that creates the default entry for a stranger. */
  function WithEntry(relationships: map<Agent, real>, other: Agent): (r: map<Agent, real>)
    ensures other in r && r[other] == TrustOf(relationships, other)
    ensures forall a :: a in relationships ==> a in r && r[a] == relationships[a]
    ensures r.Keys == relationships.Keys + {other}
  {
    if other in relationships then relationships else relationships[other := InitialTrust]
  }

  /** Units moved by one trade: up to 30 of the banked stock. */
  function TradeAmount(stock: real): (a: real)
    ensures a <= 30.0 && a <= stock
    ensures a == 30.0 || a == stock
    ensures stock > 20.0 ==> a > 20.0
  {
    Min(30.0, stock)
  }

  /** Sufficiency score: mean of the two stat ratios, plus 0.2 for a home
      and 0.1 for more than 50 banked units, clamped to [0, 1]. */
  function WellBeingOf(energy: real, hydration: real, homed: bool, banked: real): (w: real)
    ensures 0.0 <= w <= 1.0
  {
    var base := ((energy / MaxEnergy) + (hydration / MaxHydration)) / 2.0;
    var withHome := if homed then base + 0.2 else base;
    var withBank := if banked > 50.0 then withHome + 0.1 else withHome;
    Clamp01(withBank)
  }

  /** More energy, more water, a home or a bigger bank never lower wellbeing. */
  lemma WellBeingMonotone(e1: real, e2: real, h1: real, h2: real, home1: bool, home2: bool, b1: real, b2: real)
    requires e1 <= e2 && h1 <= h2 && (home1 ==> home2) && b1 <= b2
    ensures WellBeingOf(e1, h1, home1, b1) <= WellBeingOf(e2, h2, home2, b2)
  {
  }

  /** One step of exponential relaxation of current toward target. */
  function Relaxed(current: real, target: real, rate: real): (r: real)
    ensures 0.0 <= rate <= 1.0 && current <= target ==> current <= r <= target
    ensures 0.0 <= rate <= 1.0 && target <= current ==> target <= r <= current
  {
    var step := (target - current) * rate;
    ScaledBetween(target - current, rate, step);
    current + step
  }

  lemma MulNonNeg(x: real, y: real)
    requires 0.0 <= x && 0.0 <= y
    ensures 0.0 <= x * y
  {
  }

  /** p, the product of d and a rate in [0, 1], lies between 0 and d. */
  lemma ScaledBetween(d: real, rate: real, p: real)
    requires p == d * rate
    ensures 0.0 <= rate <= 1.0 && 0.0 <= d ==> 0.0 <= p <= d
    ensures 0.0 <= rate <= 1.0 && d <= 0.0 ==> d <= p <= 0.0
  {
    if 0.0 <= rate <= 1.0 {
      if 0.0 <= d {
        MulNonNeg(d, rate);
        MulNonNeg(d, 1.0 - rate);
        assert d * (1.0 - rate) == d - p;
      } else {
        MulNonNeg(-d, rate);
        MulNonNeg(-d, 1.0 - rate);
        assert (-d) * rate == -p;
        assert (-d) * (1.0 - rate) == p - d;
      }
    }
  }

  /** A trait inherited from base with a jitter drawn in [0, 1) of width
      spread, clamped to [0, 1]; it stays within spread/2 of the base. */
  function Inherited(base: real, draw: real, spread: real): (t: real)
    ensures 0.0 <= t <= 1.0
    ensures 0.0 <= base <= 1.0 && 0.0 <= draw < 1.0 && spread >= 0.0 ==>
      base - spread / 2.0 <= t <= base + spread / 2.0
  {
    var jitter := (draw - 0.5) * spread;
    JitterBound(draw, spread, jitter);
    Clamp01(base + jitter)
  }

  /** A centred jitter of a uniform draw stays within half the spread. */
  lemma JitterBound(draw: real, spread: real, jitter: real)
    requires jitter == (draw - 0.5) * spread
    ensures 0.0 <= draw <= 1.0 && spread >= 0.0 ==> -(spread / 2.0) <= jitter <= spread / 2.0
  {
    if 0.0 <= draw <= 1.0 && spread >= 0.0 {
      var p := spread * draw;
      ScaledBetween(spread, draw, p);
      assert jitter == p - spread / 2.0;
    }
  }

  /** Specialization of a new agent from a uniform roll: 40% farmers,
      40% well diggers, 20% generalists. */
  function SpecializationFromRoll(roll: real): (s: Specialization)
    ensures s == FoodGatherer <==> roll < 0.4
    ensures s == Generalist <==> roll >= 0.8
  {
    if roll < 0.4 then FoodGatherer else if roll < 0.8 then WaterGatherer else Generalist
  }

  /** The sleep decision of one step, from the sleepiness and sleeping
      state before it: sleepiness rises by 0.3 per second at night and falls
      by 0.2 per second by day, kept in [0, 1]; the agent falls asleep at
      night once sleepiness exceeds 0.6 within 50 units of home, is awake by
      day or below 0.3, and otherwise keeps its state. */
  predicate SleepDecided(sleepiness0: real, wasAsleep: bool, nearHome: bool, isNight: bool, dt: real,
                         sleepiness: real, asleep: bool)
  {
    && sleepiness == Clamp01(sleepiness0 + (if isNight then dt * 0.3 else -(dt * 0.2)))
    && (isNight && sleepiness > 0.6 && nearHome ==> asleep)
    && (!(isNight && sleepiness > 0.6 && nearHome) && (!isNight || sleepiness < 0.3) ==> !asleep)
    && (!(isNight && sleepiness > 0.6 && nearHome) && !(!isNight || sleepiness < 0.3) ==> asleep == wasAsleep)
  }

  /** Which needs an agent reports to a would-be trading partner. */
  datatype Needs = Needs(food: bool, water: bool)

  /** A footstep the agent reports to the road graph: its position, its id
      and its own alive time as the timestamp. */
  datatype Footstep = Footstep(position: Vec, agentId: int, time: real)

  /** What the timers of an awake step read of the agent before it: its
      stats, whether it has a home, its bank, and the learning and
      homelessness timers. */
  datatype Start = Start(energy: real, hydration: real, homed: bool, banked: real,
                         learningTimer: real, specialization: Specialization,
                         homelessTime: real, wantsHome: bool)

  /** The part of an agent's state that its traits, parents, age and
      stage leave alone: needs, banks, ledger, home, children, sleep,
      gathering, timers, the wish for a home, wellbeing, emotions and
      death. */
  datatype Outset = Outset(energy: real, hydration: real, storedFood: real, storedWater: real,
                           relationships: map<Agent, real>, home: Homes.Home?, children: seq<Agent>,
                           isSleeping: bool, sleepiness: real, isGathering: bool, gatheringTimer: real,
                           aliveTime: real, learningTimer: real, homelessTime: real, wantsHome: bool,
                           wellBeing: real, happiness: real, stress: real, isDead: bool, deathCause: string)

  /** Every agent starts from this outset, whatever its draws: full energy
      and hydration, empty banks and ledger, no home and no children, awake
      with no sleepiness, not gathering, every timer at zero, no wish for a
      home, wellbeing 0.5, happiness 0.7, stress 0.2, alive with no cause
      of death. */
  const InitialOutset: Outset :=
    Outset(MaxEnergy, MaxHydration, 0.0, 0.0, map[], null, [], false, 0.0, false, 0.0,
           0.0, 0.0, 0.0, false, 0.5, 0.7, 0.2, false, "")

  /** The timer fields an awake step sets. */
  datatype Timers = Timers(wellBeing: real, learningTimer: real, specialization: Specialization,
                           homelessTime: real, wantsHome: bool)

  /** Whether the learning timer fires in an awake step of dt from s. */
  predicate LearnDue(s: Start, dt: real)
  {
    s.learningTimer + dt >= LearningInterval
  }

  /** The timers after one awake step from s: wellbeing from the stats,
      home and bank before the step; the learning timer restarts when it
      reaches 15 seconds and the agent then takes up learnt; a homeless
      agent's timer runs and it wants a home once that timer passes 5
      seconds. */
  function TimedOutcome(s: Start, dt: real, learnt: Option<Specialization>): (t: Timers)
    ensures 0.0 <= t.wellBeing <= 1.0
    ensures LearnDue(s, dt) ==> t.learningTimer == 0.0
    ensures !LearnDue(s, dt) ==> t.learningTimer == s.learningTimer + dt
    ensures t.specialization != s.specialization ==> LearnDue(s, dt) && learnt == Some(t.specialization)
    ensures s.homed ==> t.homelessTime == s.homelessTime && t.wantsHome == s.wantsHome
    ensures !s.homed ==> t.homelessTime == s.homelessTime + dt
    ensures s.wantsHome ==> t.wantsHome
  {
    var learn := LearnDue(s, dt);
    var homeless := if s.homed then s.homelessTime else s.homelessTime + dt;
    Timers(WellBeingOf(s.energy, s.hydration, s.homed, s.banked),
           if learn then 0.0 else s.learningTimer + dt,
           if learn && learnt.Some? then learnt.value else s.specialization,
           homeless,
           if s.homed then s.wantsHome else s.wantsHome || homeless > 5.0)
  }

  /** What ageing, death and the emotions read of the agent before a step. */
  datatype Life = Life(age: real, isDead: bool, deathCause: string, happiness: real, stress: real)

  /** Ageing, death and the emotions at the end of an awake step, from the
      life before it and the step's final stats and wellbeing: the agent
      ages by dt; a cause of death for its new age and stats kills it and
      leaves its emotions as they were; otherwise happiness relaxes toward
      wellbeing plus the corpse mood penalty at rate dt/2 and stress
      toward the shortfall minus that penalty at rate 0.3 dt, each target
      clamped to [0, 1]. */
  function AgedOutcome(l: Life, dt: real, energy: real, hydration: real, wellBeing: real,
                       corpsePenalty: real): (r: Life)
    ensures r.age == l.age + dt
    ensures DeathCauseOf(r.age, energy, hydration).Some? ==>
      r.isDead && r.deathCause == DeathCauseOf(r.age, energy, hydration).value
      && r.happiness == l.happiness && r.stress == l.stress
    ensures DeathCauseOf(r.age, energy, hydration).None? ==> r.isDead == l.isDead && r.deathCause == l.deathCause
    ensures 0.0 <= dt <= 2.0 && 0.0 <= l.happiness <= 1.0 ==> 0.0 <= r.happiness <= 1.0
    ensures 0.0 <= dt <= 2.0 && 0.0 <= l.stress <= 1.0 ==> 0.0 <= r.stress <= 1.0
  {
    var age := l.age + dt;
    match DeathCauseOf(age, energy, hydration)
    case Some(cause) => Life(age, true, cause, l.happiness, l.stress)
    case None =>
      Life(age, l.isDead, l.deathCause,
           Relaxed(l.happiness, Clamp01(wellBeing + corpsePenalty), dt * 0.5),
           Relaxed(l.stress, Clamp01((1.0 - wellBeing) - corpsePenalty), dt * 0.3))
  }

  class Agent {
    const id: int
    var aliveTime: real
    var position: Vec

    var energy: real
    var hydration: real

    var lifeStage: LifeStage
    var age: real
    var isDead: bool
    var deathCause: string

    var parent1: Agent?
    var parent2: Agent?
    var children: seq<Agent>

    var generosity: real
    var bravery: real
    var sociability: real

    var happiness: real
    var stress: real

    var isSleeping: bool
    var sleepiness: real

    var specialization: Specialization

    var storedFood: real
    var storedWater: real

    var relationships: map<Agent, real>

    var home: Homes.Home?
    var wantsHome: bool
    var homelessTime: real

    var learningTimer: real
    var wellBeing: real

    var gatheringTimer: real
    var isGathering: bool

    /** The ranges the agent's fields keep between steps. Energy and
        hydration have no lower bound here: a sleeping step drains them
        without flooring them at zero. */
    ghost predicate Valid()
      reads this`energy, this`hydration, this`storedFood, this`storedWater, this`sleepiness, this`wellBeing
      reads this`generosity, this`bravery, this`sociability, this`relationships, this`age, this`gatheringTimer
    {
      InRanges(energy, hydration, storedFood, storedWater, sleepiness, wellBeing,
               generosity, bravery, sociability, relationships, age, gatheringTimer)
    }

    /** The outset part of the agent's state. */
    function OutsetOf(): Outset
      reads this`energy, this`hydration, this`storedFood, this`storedWater, this`relationships
      reads this`home, this`children, this`isSleeping, this`sleepiness, this`isGathering, this`gatheringTimer
      reads this`aliveTime, this`learningTimer, this`homelessTime, this`wantsHome
      reads this`wellBeing, this`happiness, this`stress, this`isDead, this`deathCause
    {
      Outset(energy, hydration, storedFood, storedWater, relationships, home, children,
             isSleeping, sleepiness, isGathering, gatheringTimer,
             aliveTime, learningTimer, homelessTime, wantsHome,
             wellBeing, happiness, stress, isDead, deathCause)
    }

    /** A new agent. spec is the requested specialization, if any; the
        draws stand for the constructor's uniform random numbers. */
    constructor (position: Vec, id: int, spec: Option<Specialization>,
                 specRoll: real, generosityDraw: real, braveryDraw: real,
                 sociabilityDraw: real, ageDraw: real)
      requires 0.0 <= generosityDraw < 1.0 && 0.0 <= braveryDraw < 1.0
      requires 0.0 <= sociabilityDraw < 1.0 && 0.0 <= ageDraw < 1.0
      ensures Valid()
      ensures this.id == id && this.position == position
      ensures energy == MaxEnergy && hydration == MaxHydration
      ensures specialization == if spec.Some? then spec.value else SpecializationFromRoll(specRoll)
      ensures 0.2 <= generosity <= 0.8 && 0.2 <= bravery <= 0.8 && 0.2 <= sociability <= 0.8
      ensures 0.0 <= age < ChildhoodDuration
      ensures lifeStage == Adult && !isDead
      ensures relationships == map[] && children == [] && home == null
      ensures parent1 == null && parent2 == null
      ensures OutsetOf() == InitialOutset
    {
      this.id := id;
      this.position := position;
      aliveTime := 0.0;
      energy := MaxEnergy;
      hydration := MaxHydration;
      lifeStage := Adult;
      isDead := false;
      deathCause := "";
      parent1 := null;
      parent2 := null;
      children := [];
      happiness := 0.7;
      stress := 0.2;
      isSleeping := false;
      sleepiness := 0.0;
      storedFood := 0.0;
      storedWater := 0.0;
      relationships := map[];
      home := null;
      wantsHome := false;
      homelessTime := 0.0;
      learningTimer := 0.0;
      wellBeing := 0.5;
      gatheringTimer := 0.0;
      isGathering := false;
      specialization := if spec.Some? then spec.value else SpecializationFromRoll(specRoll);
      generosity := generosityDraw * 0.6 + 0.2;
      bravery := braveryDraw * 0.6 + 0.2;
      sociability := sociabilityDraw * 0.6 + 0.2;
      age := ageDraw * ChildhoodDuration;
    }

    /** A newborn: an agent constructed as above whose traits, parents,
        age and stage are then overwritten. Its specialization is still
        rolled; only the draws it keeps are parameters. */
    constructor Newborn(position: Vec, id: int, specRoll: real, g: real, b: real, s: real,
                        p1: Agent, p2: Agent?)
      requires 0.0 <= g <= 1.0 && 0.0 <= b <= 1.0 && 0.0 <= s <= 1.0
      ensures Valid()
      ensures this.id == id && this.position == position
      ensures specialization == SpecializationFromRoll(specRoll)
      ensures generosity == g && bravery == b && sociability == s
      ensures parent1 == p1 && parent2 == p2
      ensures age == 0.0 && lifeStage == Child
      ensures OutsetOf() == InitialOutset
    {
      this.id := id;
      this.position := position;
      aliveTime := 0.0;
      energy := MaxEnergy;
      hydration := MaxHydration;
      lifeStage := Child;
      isDead := false;
      deathCause := "";
      parent1 := p1;
      parent2 := p2;
      children := [];
      happiness := 0.7;
      stress := 0.2;
      isSleeping := false;
      sleepiness := 0.0;
      storedFood := 0.0;
      storedWater := 0.0;
      relationships := map[];
      home := null;
      wantsHome := false;
      homelessTime := 0.0;
      learningTimer := 0.0;
      wellBeing := 0.5;
      gatheringTimer := 0.0;
      isGathering := false;
      specialization := SpecializationFromRoll(specRoll);
      generosity, bravery, sociability := g, b, s;
      age := 0.0;
    }

    /** Whether the agent has a home within the given radius. */
    predicate NearHome(radius: real)
      reads this`home, this`position
    {
      home != null && DistSq(position, home.position) < radius * radius
    }

    // ---------------------------------------------------------------
    // The decision step, phase by phase

    /** Sleepiness bookkeeping and the sleep decision; asleep means the
        rest of the step is skipped. */
    method UpdateSleep(dt: real, isNight: bool) returns (asleep: bool)
      requires Valid() && dt >= 0.0
      modifies this`aliveTime, this`sleepiness, this`isSleeping
      ensures Valid()
      ensures aliveTime == old(aliveTime) + dt
      ensures SleepDecided(old(sleepiness), old(isSleeping), old(NearHome(50.0)), isNight, dt, sleepiness, asleep)
      ensures asleep == isSleeping
      ensures unchanged(this`energy, this`hydration)
      ensures unchanged(this`home, this`position, this`storedFood, this`storedWater, this`wellBeing)
      ensures unchanged(this`learningTimer, this`specialization, this`homelessTime, this`wantsHome)
      ensures unchanged(this`isGathering, this`gatheringTimer, this`age, this`lifeStage)
      ensures unchanged(this`isDead, this`deathCause, this`happiness, this`stress)
    {
      aliveTime := aliveTime + dt;
      TickSleepiness(dt, isNight);
      if isNight && sleepiness > 0.6 && NearHome(50.0) {
        isSleeping := true;
      } else if !isNight || sleepiness < 0.3 {
        isSleeping := false;
      }
      asleep := isSleeping;
    }

    /** The sleeping branch: energy and hydration drain at 0.1 and 0.05 per
        second, without flooring at zero. */
    method Doze(dt: real)
      requires Valid() && dt >= 0.0
      modifies this`energy, this`hydration
      ensures Valid()
      ensures energy == old(energy) - 0.1 * dt && hydration == old(hydration) - 0.05 * dt
      ensures unchanged(this`home, this`position, this`storedFood, this`storedWater, this`wellBeing)
      ensures unchanged(this`learningTimer, this`specialization, this`homelessTime, this`wantsHome)
      ensures unchanged(this`isGathering, this`gatheringTimer, this`age, this`lifeStage)
      ensures unchanged(this`isDead, this`deathCause, this`happiness, this`stress)
    {
      energy := energy - 0.1 * dt;
      hydration := hydration - 0.05 * dt;
    }

    /** Sleepiness rises by 0.3 per second at night, falls by 0.2 per
        second by day, and stays within [0, 1]. */
    method TickSleepiness(dt: real, isNight: bool)
      requires Valid() && dt >= 0.0
      modifies this`sleepiness
      ensures Valid()
      ensures sleepiness == Clamp01(old(sleepiness) + (if isNight then dt * 0.3 else -(dt * 0.2)))
      ensures isNight ==> old(sleepiness) <= sleepiness
      ensures !isNight ==> sleepiness <= old(sleepiness)
    {
      if isNight {
        sleepiness := sleepiness + dt * 0.3;
      } else {
        sleepiness := sleepiness - dt * 0.2;
      }
      sleepiness := Clamp01(sleepiness);
    }

    /** Wellbeing recomputed from the current stats, home and bank. */
    method UpdateWellBeing()
      requires Valid()
      modifies this`wellBeing
      ensures Valid()
      ensures wellBeing == WellBeingOf(energy, hydration, home != null, storedFood + storedWater)
    {
      wellBeing := WellBeingOf(energy, hydration, home != null, storedFood + storedWater);
    }

    /** Advances the learning timer. When it fires, learn tells the world
        to run its learn-from-neighbours step, whose outcome is learnt: the
        specialization the agent takes up, if any. The timer then restarts. */
    method TickLearning(dt: real, learnt: Option<Specialization>) returns (learn: bool)
      modifies this`learningTimer, this`specialization
      ensures learn <==> old(learningTimer) + dt >= LearningInterval
      ensures learningTimer == if learn then 0.0 else old(learningTimer) + dt
      ensures specialization == if learn && learnt.Some? then learnt.value else old(specialization)
    {
      learningTimer := learningTimer + dt;
      learn := learningTimer >= LearningInterval;
      if learn {
        learningTimer := 0.0;
        if learnt.Some? {
          AdoptSpecialization(learnt.value);
        }
      }
    }

    /** A homeless agent starts wanting a home after 5 seconds. */
    method TickHomelessness(dt: real)
      modifies this`homelessTime, this`wantsHome
      ensures home != null ==> homelessTime == old(homelessTime) && wantsHome == old(wantsHome)
      ensures home == null ==> homelessTime == old(homelessTime) + dt
      ensures home == null ==> wantsHome == (old(wantsHome) || homelessTime > 5.0)
    {
      if home == null {
        homelessTime := homelessTime + dt;
        if homelessTime > 5.0 {
          wantsHome := true;
        }
      }
    }

    /** With more than 40 units of either stock, head home; within 20
        units of home, unload everything into home storage. seeking
        reports that the agent is heading home (steering is not modelled). */
    method ReturnCargo() returns (seeking: bool)
      requires Valid() && (home != null ==> home.Valid())
      modifies this`storedFood, this`storedWater, home
      ensures Valid() && (home != null ==> home.Valid())
      ensures home != null ==> home.productionTimer == old(home.productionTimer)
      ensures var loaded := home != null && (old(storedFood) > 40.0 || old(storedWater) > 40.0);
        && (seeking <==> loaded && DistSq(position, home.position) > 400.0)
        && (loaded && !seeking ==>
              storedFood == 0.0 && storedWater == 0.0
              && home.storedFood == Homes.Stored(old(home.storedFood), old(storedFood))
              && home.storedWater == Homes.Stored(old(home.storedWater), old(storedWater)))
        && (!(loaded && !seeking) ==>
              storedFood == old(storedFood) && storedWater == old(storedWater)
              && (home != null ==> home.storedFood == old(home.storedFood)
                                   && home.storedWater == old(home.storedWater)))
    {
      seeking := false;
      if home != null && (storedFood > 40.0 || storedWater > 40.0) {
        if DistSq(position, home.position) > 20.0 * 20.0 {
          seeking := true;
        } else {
          home.StoreResources(storedFood, storedWater);
          storedFood := 0.0;
          storedWater := 0.0;
        }
      }
    }

    /** Within 50 units of home, a stat below half its maximum is topped up
        by up to 30 units from home storage. */
    method DrawFromHome()
      requires Valid() && (home != null ==> home.Valid())
      modifies this`energy, this`hydration, home
      ensures Valid() && (home != null ==> home.Valid())
      ensures home != null ==> home.productionTimer == old(home.productionTimer)
      ensures !NearHome(50.0) ==>
        energy == old(energy) && hydration == old(hydration)
        && (home != null ==> home.storedFood == old(home.storedFood)
                             && home.storedWater == old(home.storedWater))
      ensures NearHome(50.0) ==>
        var eat := old(energy) < MaxEnergy * 0.5 && old(home.storedFood) > 0.0;
        var drink := old(hydration) < MaxHydration * 0.5 && old(home.storedWater) > 0.0;
        var food := if eat then Homes.Withdrawn(30.0, old(home.storedFood)) else 0.0;
        var water := if drink then Homes.Withdrawn(30.0, old(home.storedWater)) else 0.0;
        && home.storedFood == old(home.storedFood) - food
        && home.storedWater == old(home.storedWater) - water
        && energy == (if eat then Min(old(energy) + food, MaxEnergy) else old(energy))
        && hydration == (if drink then Min(old(hydration) + water, MaxHydration) else old(hydration))
    {
      if home != null && DistSq(position, home.position) < 50.0 * 50.0 {
        if energy < MaxEnergy * 0.5 && home.storedFood > 0.0 {
          var withdrawnFood, _ := home.WithdrawResources(30.0, 0.0);
          energy := Min(energy + withdrawnFood, MaxEnergy);
        }
        if hydration < MaxHydration * 0.5 && home.storedWater > 0.0 {
          var _, withdrawnWater := home.WithdrawResources(0.0, 30.0);
          hydration := Min(hydration + withdrawnWater, MaxHydration);
        }
      }
    }

    /** Whether the agent goes for food this step. */
    predicate SeeksFood()
      reads this
    {
      var needFood := energy < MaxEnergy * 0.7
        || (specialization == FoodGatherer && storedFood < MaxStorage);
      needFood && (specialization != WaterGatherer || energy < 40.0)
    }

    /** Whether the agent goes for water this step (only if not for food). */
    predicate SeeksWater()
      reads this
    {
      var needWater := hydration < MaxHydration * 0.7
        || (specialization == WaterGatherer && storedWater < MaxStorage);
      !SeeksFood() && needWater && (specialization != FoodGatherer || hydration < 40.0)
    }

    /** Need resolution against the nearest available food and water the
        world found: food when SeeksFood, otherwise water when SeeksWater.
        seeking reports that the agent heads for a resource. */
    method SeekResources(dt: real, food: Foods.Food?, water: Waters.Water?) returns (seeking: bool)
      requires Valid() && dt >= 0.0
      requires food != null ==> food.Valid()
      requires water != null ==> water.Valid()
      modifies this`energy, this`hydration, this`storedFood, this`storedWater
      modifies this`isGathering, this`gatheringTimer, food, water
      ensures Valid()
      ensures food != null ==> food.Valid()
      ensures water != null ==> water.Valid()
      ensures seeking <==> (old(SeeksFood()) && food != null) || (old(SeeksWater()) && water != null)
      // food chosen: the gathering step, and the water untouched
      ensures old(SeeksFood()) && food != null ==>
        && GatheredAt(dt, food)
        && hydration == old(hydration) && storedWater == old(storedWater)
        && (water != null ==> unchanged(water))
      // water chosen: the drinking step, and the food and the gathering untouched
      ensures old(SeeksWater()) && water != null ==>
        && DrankAt(water)
        && energy == old(energy) && storedFood == old(storedFood)
        && isGathering == old(isGathering) && gatheringTimer == old(gatheringTimer)
        && (food != null ==> unchanged(food))
      // nothing available that the agent seeks: nothing changes
      ensures !seeking ==>
        && energy == old(energy) && storedFood == old(storedFood)
        && hydration == old(hydration) && storedWater == old(storedWater)
        && isGathering == old(isGathering) && gatheringTimer == old(gatheringTimer)
        && (food != null ==> unchanged(food)) && (water != null ==> unchanged(water))
    {
      seeking := false;
      if SeeksFood() {
        if food != null {
          seeking := true;
          GatherFood(dt, food);
        }
      } else if SeeksWater() {
        if water != null {
          seeking := true;
          DrinkWater(water);
        }
      }
    }

    /** The effect of one gathering step at a bush: within 15 units the
        gathering timer (restarted unless already gathering) advances by
        dt, and once it reaches 1.5 seconds the bush is harvested with
        fill-then-bank and the timer resets; farther away the timer resets
        and nothing is eaten. */
    twostate predicate GatheredAt(dt: real, food: Foods.Food)
      reads this, food
    {
      var timer := (if old(isGathering) then old(gatheringTimer) else 0.0) + dt;
      var near := DistSq(position, food.position) < 225.0;
      && (near && timer >= GatheringDuration ==>
            var g := FillThenBank(old(energy), MaxEnergy, Foods.EnergyValue, old(storedFood), MaxStorage);
            && energy == g.stat && storedFood == g.stored
            && food.consumed && food.regenerationTimer == 0.0
            && food.harvestPressure == old(food.harvestPressure) + 1.0
            && !isGathering && gatheringTimer == 0.0)
      && (near && timer < GatheringDuration ==>
            && energy == old(energy) && storedFood == old(storedFood)
            && isGathering && gatheringTimer == timer
            && unchanged(food))
      && (!near ==>
            && energy == old(energy) && storedFood == old(storedFood)
            && !isGathering && gatheringTimer == 0.0
            && unchanged(food))
    }

    /** The effect of drinking at a spot: within 15 units the agent drinks
        its hydration value with fill-then-bank and the spot is used;
        farther away nothing changes. */
    twostate predicate DrankAt(water: Waters.Water)
      reads this, water
    {
      && (DistSq(position, water.position) < 225.0 ==>
            var g := FillThenBank(old(hydration), MaxHydration, Waters.HydrationValue, old(storedWater), MaxStorage);
            && hydration == g.stat && storedWater == g.stored
            && water.consumed && water.regenerationTimer == 0.0
            && water.harvestPressure == old(water.harvestPressure) + 1.0)
      && (DistSq(position, water.position) >= 225.0 ==>
            hydration == old(hydration) && storedWater == old(storedWater) && unchanged(water))
    }

    /** Gathering at a bush: within 15 units the gathering timer runs, and
        after 1.5 seconds the bush is harvested; moving off resets it. */
    method GatherFood(dt: real, food: Foods.Food)
      requires Valid() && dt >= 0.0 && food.Valid()
      modifies this`energy, this`storedFood, this`isGathering, this`gatheringTimer, food
      ensures Valid() && food.Valid()
      ensures GatheredAt(dt, food)
    {
      var distSq := DistSq(position, food.position);
      if distSq < 15.0 * 15.0 {
        var done := AdvanceGathering(dt);
        if done {
          Harvest(food);
          isGathering := false;
          gatheringTimer := 0.0;
        }
      } else if distSq > 0.0 {
        isGathering := false;
        gatheringTimer := 0.0;
      }
    }

    /** The gathering timer at a bush: started when the agent was not yet
        gathering, then advanced by dt; done once it reaches the duration. */
    method AdvanceGathering(dt: real) returns (done: bool)
      requires Valid() && dt >= 0.0
      modifies this`isGathering, this`gatheringTimer
      ensures Valid() && isGathering
      ensures gatheringTimer == (if old(isGathering) then old(gatheringTimer) else 0.0) + dt
      ensures done <==> gatheringTimer >= GatheringDuration
    {
      if !isGathering {
        isGathering := true;
        gatheringTimer := 0.0;
      }
      gatheringTimer := gatheringTimer + dt;
      done := gatheringTimer >= GatheringDuration;
    }

    /** Harvests a bush: its energy value fills energy first and the rest
        is banked. */
    method Harvest(food: Foods.Food)
      requires Valid() && food.Valid()
      modifies this`energy, this`storedFood, food
      ensures Valid() && food.Valid()
      ensures var g := FillThenBank(old(energy), MaxEnergy, Foods.EnergyValue, old(storedFood), MaxStorage);
        energy == g.stat && storedFood == g.stored
      ensures food.consumed && food.regenerationTimer == 0.0
      ensures food.harvestPressure == old(food.harvestPressure) + 1.0
    {
      var g := FillThenBank(energy, MaxEnergy, Foods.EnergyValue, storedFood, MaxStorage);
      energy := g.stat;
      storedFood := g.stored;
      food.Consume();
    }

    /** Drinking at a spot: within 15 units the agent drinks at once. */
    method DrinkWater(water: Waters.Water)
      requires Valid() && water.Valid()
      modifies this`hydration, this`storedWater, water
      ensures Valid() && water.Valid()
      ensures DrankAt(water)
    {
      if DistSq(position, water.position) < 15.0 * 15.0 {
        var g := FillThenBank(hydration, MaxHydration, Waters.HydrationValue, storedWater, MaxStorage);
        hydration := g.stat;
        storedWater := g.stored;
        water.Consume();
      }
    }

    /** Awake consumption: 0.4 energy and 0.3 hydration per second, 20%
        less within 100 units of home, each floored at zero. */
    method Metabolize(dt: real)
      requires Valid() && dt >= 0.0
      modifies this`energy, this`hydration
      ensures Valid()
      ensures var rate := if NearHome(100.0) then 0.8 else 1.0;
        energy == Drained(old(energy), 0.4 * dt * rate)
        && hydration == Drained(old(hydration), 0.3 * dt * rate)
      ensures 0.0 <= energy && 0.0 <= hydration
    {
      var consumptionRate := 1.0;
      if NearHome(100.0) {
        consumptionRate := 0.8;
      }
      var energyDrain, hydrationDrain := 0.4 * dt * consumptionRate, 0.3 * dt * consumptionRate;
      MulNonNeg(0.4 * dt, consumptionRate);
      MulNonNeg(0.3 * dt, consumptionRate);
      energy := energy - energyDrain;
      if energy < 0.0 {
        energy := 0.0;
      }
      hydration := hydration - hydrationDrain;
      if hydration < 0.0 {
        hydration := 0.0;
      }
    }

    /** Ageing, the life stage, and death by old age or by starvation. */
    method AgeAndCheckDeath(dt: real) returns (died: bool)
      requires Valid() && dt >= 0.0
      modifies this`age, this`lifeStage, this`isDead, this`deathCause
      ensures Valid()
      ensures age == old(age) + dt
      ensures lifeStage == StageOf(age)
      ensures var c := DeathCauseOf(age, energy, hydration);
        && (died <==> c.Some?)
        && (died ==> isDead && deathCause == c.value)
        && (!died ==> isDead == old(isDead) && deathCause == old(deathCause))
    {
      age := age + dt;
      lifeStage := StageOf(age);
      if age >= MaxLifespan {
        isDead := true;
        deathCause := "Old Age";
        return true;
      }
      if energy <= 0.0 && hydration <= 0.0 {
        isDead := true;
        deathCause := "Starvation";
        return true;
      }
      return false;
    }

    /** Happiness and stress relax toward targets set by wellbeing and
        the mood penalty of nearby corpses. */
    method UpdateEmotions(dt: real, corpsePenalty: real)
      modifies this`happiness, this`stress
      ensures Calmed(old(happiness), old(stress), dt, corpsePenalty)
      ensures 0.0 <= dt <= 2.0 && 0.0 <= old(happiness) <= 1.0 ==> 0.0 <= happiness <= 1.0
      ensures 0.0 <= dt <= 2.0 && 0.0 <= old(stress) <= 1.0 ==> 0.0 <= stress <= 1.0
    {
      var targetHappiness := Clamp01(wellBeing + corpsePenalty);
      happiness := happiness + (targetHappiness - happiness) * (dt * 0.5);
      var targetStress := Clamp01((1.0 - wellBeing) - corpsePenalty);
      stress := stress + (targetStress - stress) * (dt * 0.3);
      assert happiness == Relaxed(old(happiness), targetHappiness, dt * 0.5);
      assert stress == Relaxed(old(stress), targetStress, dt * 0.3);
    }

    /** The emotions after one step: happiness relaxes toward wellbeing
        plus the corpse mood penalty at rate dt/2, stress toward the
        shortfall minus that penalty at rate 0.3 dt, each target clamped to
        [0, 1]. */
    predicate Calmed(happiness0: real, stress0: real, dt: real, corpsePenalty: real)
      reads this`happiness, this`stress, this`wellBeing
    {
      && happiness == Relaxed(happiness0, Clamp01(wellBeing + corpsePenalty), dt * 0.5)
      && stress == Relaxed(stress0, Clamp01((1.0 - wellBeing) - corpsePenalty), dt * 0.3)
    }

    /** The awake part of the step before movement: wellbeing, the learning
        and homelessness timers, unloading at home, drawing from home
        storage, and gathering. */
    method ResolveNeeds(dt: real, learnt: Option<Specialization>, food: Foods.Food?, water: Waters.Water?)
      returns (learn: bool)
      requires Valid() && dt >= 0.0
      requires home != null ==> home.Valid()
      requires food != null ==> food.Valid()
      requires water != null ==> water.Valid()
      modifies this`wellBeing, this`learningTimer, this`specialization, this`homelessTime, this`wantsHome
      modifies this`energy, this`hydration, this`storedFood, this`storedWater
      modifies this`isGathering, this`gatheringTimer, home, food, water
      ensures Valid()
      ensures home != null ==> home.Valid()
      ensures food != null ==> food.Valid()
      ensures water != null ==> water.Valid()
      ensures learn == LearnDue(old(StartOf()), dt)
      ensures TimersOf() == TimedOutcome(old(StartOf()), dt, learnt)
      ensures unchanged(this`age, this`isDead, this`deathCause, this`happiness, this`stress)
      ensures unchanged(this`aliveTime, this`sleepiness, this`isSleeping)
    {
      learn := TickTimers(dt, learnt);
      UseHomeAndGather(dt, food, water);
    }

    /** The agent's timer fields. */
    function TimersOf(): Timers
      reads this`wellBeing, this`learningTimer, this`specialization, this`homelessTime, this`wantsHome
    {
      Timers(wellBeing, learningTimer, specialization, homelessTime, wantsHome)
    }

    /** The state an awake step's timers start from. */
    function StartOf(): Start
      reads this`energy, this`hydration, this`home, this`storedFood, this`storedWater
      reads this`learningTimer, this`specialization, this`homelessTime, this`wantsHome
    {
      Start(energy, hydration, home != null, storedFood + storedWater,
            learningTimer, specialization, homelessTime, wantsHome)
    }

    /** The state ageing, death and the emotions start from. */
    function LifeOf(): Life
      reads this`age, this`isDead, this`deathCause, this`happiness, this`stress
    {
      Life(age, isDead, deathCause, happiness, stress)
    }

    /** Wellbeing, then the learning and homelessness timers. */
    method TickTimers(dt: real, learnt: Option<Specialization>) returns (learn: bool)
      requires Valid()
      modifies this`wellBeing, this`learningTimer, this`specialization, this`homelessTime, this`wantsHome
      ensures Valid()
      ensures learn == LearnDue(old(StartOf()), dt)
      ensures TimersOf() == TimedOutcome(old(StartOf()), dt, learnt)
    {
      UpdateWellBeing();
      learn := TickLearning(dt, learnt);
      TickHomelessness(dt);
    }

    /** Unloading at home, drawing from home storage, and gathering. */
    method UseHomeAndGather(dt: real, food: Foods.Food?, water: Waters.Water?)
      requires Valid() && dt >= 0.0
      requires home != null ==> home.Valid()
      requires food != null ==> food.Valid()
      requires water != null ==> water.Valid()
      modifies this`energy, this`hydration, this`storedFood, this`storedWater
      modifies this`isGathering, this`gatheringTimer, home, food, water
      ensures Valid()
      ensures home != null ==> home.Valid()
      ensures food != null ==> food.Valid()
      ensures water != null ==> water.Valid()
    {
      var headingHome := ReturnCargo();
      DrawFromHome();
      var seeking := SeekResources(dt, food, water);
    }

    /** One decision step. The world's answers are parameters: isNight,
        the outcome of its learn-from-neighbours step (learnt), the
        nearest available food and water, the position reached by
        steering, the speed cap and integration (moved), whether the agent
        moves faster than 10 units per second (walking), the world
        rectangle and the corpse mood penalty at the agent's position.
        footstep is the call the agent makes into the road graph; learn
        reports that the learning timer fired. */
    method Update(dt: real, isNight: bool, learnt: Option<Specialization>, food: Foods.Food?, water: Waters.Water?,
                  moved: Vec, walking: bool, bounds: Rect, corpsePenalty: real)
      returns (asleep: bool, learn: bool, died: bool, footstep: Option<Footstep>)
      requires Valid() && dt >= 0.0 && bounds.WellFormed()
      requires home != null ==> home.Valid()
      requires food != null ==> food.Valid()
      requires water != null ==> water.Valid()
      modifies this`aliveTime, this`sleepiness, this`isSleeping
      modifies this`wellBeing, this`learningTimer, this`specialization, this`homelessTime, this`wantsHome
      modifies this`energy, this`hydration, this`storedFood, this`storedWater
      modifies this`isGathering, this`gatheringTimer, home, food, water
      modifies this`position, this`age, this`lifeStage, this`isDead, this`deathCause, this`happiness, this`stress
      ensures Valid()
      ensures home != null ==> home.Valid()
      ensures food != null ==> food.Valid()
      ensures water != null ==> water.Valid()
      ensures aliveTime == old(aliveTime) + dt
      // the sleep decision
      ensures SleepDecided(old(sleepiness), old(isSleeping), old(NearHome(50.0)), isNight, dt, sleepiness, asleep)
      ensures isSleeping == asleep
      // a sleeping agent only drains, without flooring, and does nothing else
      ensures asleep ==>
        && !learn && !died && footstep.None?
        && energy == old(energy) - 0.1 * dt && hydration == old(hydration) - 0.05 * dt
        && position == old(position) && storedFood == old(storedFood) && storedWater == old(storedWater)
        && wellBeing == old(wellBeing) && learningTimer == old(learningTimer) && specialization == old(specialization)
        && homelessTime == old(homelessTime) && wantsHome == old(wantsHome)
        && isGathering == old(isGathering) && gatheringTimer == old(gatheringTimer)
        && age == old(age) && lifeStage == old(lifeStage) && isDead == old(isDead) && deathCause == old(deathCause)
        && happiness == old(happiness) && stress == old(stress)
        && (home != null ==> unchanged(home))
        && (food != null ==> unchanged(food)) && (water != null ==> unchanged(water))
      // an awake agent's timers, movement, ageing, death and emotions
      ensures !asleep ==>
        && learn == LearnDue(old(StartOf()), dt)
        && TimersOf() == TimedOutcome(old(StartOf()), dt, learnt)
        && position == ClampToRect(moved, bounds)
        && 0.0 <= energy && 0.0 <= hydration
        && LifeOf() == AgedOutcome(old(LifeOf()), dt, energy, hydration, wellBeing, corpsePenalty)
        && lifeStage == StageOf(age)
        && (died <==> DeathCauseOf(age, energy, hydration).Some?)
        && (footstep.Some? <==> walking)
        && (footstep.Some? ==> footstep.value == Footstep(moved, id, aliveTime))
    {
      learn, died, footstep := false, false, None;
      asleep := UpdateSleep(dt, isNight);
      if asleep {
        Doze(dt);
        return;
      }
      learn, died, footstep := Awake(dt, learnt, food, water, moved, walking, bounds, corpsePenalty);
    }

    /** The step of an agent that stays awake: its needs, then movement,
        ageing and emotions. */
    method Awake(dt: real, learnt: Option<Specialization>, food: Foods.Food?, water: Waters.Water?,
                 moved: Vec, walking: bool, bounds: Rect, corpsePenalty: real)
      returns (learn: bool, died: bool, footstep: Option<Footstep>)
      requires Valid() && dt >= 0.0 && bounds.WellFormed()
      requires home != null ==> home.Valid()
      requires food != null ==> food.Valid()
      requires water != null ==> water.Valid()
      modifies this`wellBeing, this`learningTimer, this`specialization, this`homelessTime, this`wantsHome
      modifies this`energy, this`hydration, this`storedFood, this`storedWater
      modifies this`isGathering, this`gatheringTimer, home, food, water
      modifies this`position, this`age, this`lifeStage, this`isDead, this`deathCause, this`happiness, this`stress
      ensures Valid()
      ensures home != null ==> home.Valid()
      ensures food != null ==> food.Valid()
      ensures water != null ==> water.Valid()
      ensures learn == LearnDue(old(StartOf()), dt)
      ensures TimersOf() == TimedOutcome(old(StartOf()), dt, learnt)
      ensures position == ClampToRect(moved, bounds)
      ensures 0.0 <= energy && 0.0 <= hydration
      ensures LifeOf() == AgedOutcome(old(LifeOf()), dt, energy, hydration, wellBeing, corpsePenalty)
      ensures lifeStage == StageOf(age)
      ensures died <==> DeathCauseOf(age, energy, hydration).Some?
      ensures footstep.Some? <==> walking
      ensures footstep.Some? ==> footstep.value == Footstep(moved, id, aliveTime)
      ensures unchanged(this`aliveTime, this`sleepiness, this`isSleeping)
    {
      learn := ResolveNeeds(dt, learnt, food, water);
      died, footstep := MoveAndAge(dt, moved, walking, bounds, corpsePenalty);
    }

    /** The awake part of the step from movement on: the footstep, the
        boundary, consumption, ageing and death, and the emotions. */
    method MoveAndAge(dt: real, moved: Vec, walking: bool, bounds: Rect, corpsePenalty: real)
      returns (died: bool, footstep: Option<Footstep>)
      requires Valid() && dt >= 0.0 && bounds.WellFormed()
      modifies this`position, this`energy, this`hydration, this`age, this`lifeStage
      modifies this`isDead, this`deathCause, this`happiness, this`stress
      ensures Valid()
      ensures position == ClampToRect(moved, bounds)
      ensures footstep.Some? <==> walking
      ensures footstep.Some? ==> footstep.value == Footstep(moved, id, aliveTime)
      ensures energy == Drained(old(energy), 0.4 * dt * DrainRate())
      ensures hydration == Drained(old(hydration), 0.3 * dt * DrainRate())
      ensures LifeOf() == AgedOutcome(old(LifeOf()), dt, energy, hydration, wellBeing, corpsePenalty)
      ensures lifeStage == StageOf(age)
      ensures died <==> DeathCauseOf(age, energy, hydration).Some?
      ensures unchanged(this`wellBeing, this`learningTimer, this`specialization, this`homelessTime, this`wantsHome)
      ensures unchanged(this`aliveTime, this`sleepiness, this`isSleeping)
    {
      footstep := Move(moved, walking, bounds);
      died := Live(dt, corpsePenalty);
    }

    /** Movement: steering, wander, speed cap and integration give moved;
        a walking agent leaves a footstep there, and the position is then
        clamped into the world. */
    method Move(moved: Vec, walking: bool, bounds: Rect) returns (footstep: Option<Footstep>)
      requires bounds.WellFormed()
      modifies this`position
      ensures position == ClampToRect(moved, bounds)
      ensures footstep.Some? <==> walking
      ensures footstep.Some? ==> footstep.value == Footstep(moved, id, aliveTime)
    {
      footstep := None;
      position := moved;
      if walking {
        footstep := Some(Footstep(position, id, aliveTime));
      }
      position := ClampToRect(position, bounds);
    }

    /** Consumption, ageing and death, then (for the living) the emotions. */
    method Live(dt: real, corpsePenalty: real) returns (died: bool)
      requires Valid() && dt >= 0.0
      modifies this`energy, this`hydration, this`age, this`lifeStage
      modifies this`isDead, this`deathCause, this`happiness, this`stress
      ensures Valid()
      ensures energy == Drained(old(energy), 0.4 * dt * DrainRate())
      ensures hydration == Drained(old(hydration), 0.3 * dt * DrainRate())
      ensures LifeOf() == AgedOutcome(old(LifeOf()), dt, energy, hydration, wellBeing, corpsePenalty)
      ensures lifeStage == StageOf(age)
      ensures died <==> DeathCauseOf(age, energy, hydration).Some?
    {
      Metabolize(dt);
      died := AgeAndCheckDeath(dt);
      if died {
        return;
      }
      UpdateEmotions(dt, corpsePenalty);
    }

    /** The consumption rate of an awake step at the agent's position:
        20% less within 100 units of home. */
    function DrainRate(): (r: real)
      reads this`home, this`position
      ensures r == 0.8 <==> NearHome(100.0)
      ensures r == 0.8 || r == 1.0
    {
      if NearHome(100.0) then 0.8 else 1.0
    }

    // ---------------------------------------------------------------
    // The trust ledger and the social operations

    /** Whether the agent helps other, decided by a uniform draw against
        its trust in other; a stranger first gets the default trust. */
    method WillHelp(other: Agent, draw: real) returns (b: bool)
      requires Valid()
      modifies this`relationships
      ensures Valid()
      ensures relationships == WithEntry(old(relationships), other)
      ensures b <==> draw < TrustOf(old(relationships), other)
    {
      if other !in relationships {
        relationships := relationships[other := InitialTrust];
      }
      b := draw < relationships[other];
    }

    /** Accepts energy from helper, capped at the maximum, and trusts the
        helper more. */
    method ReceiveHelp(helper: Agent, energyAmount: real)
      requires Valid()
      modifies this`energy, this`relationships
      ensures Valid()
      ensures energy == Min(old(energy) + energyAmount, MaxEnergy)
      ensures relationships == old(relationships)[helper := Raised(TrustOf(old(relationships), helper), HelpReward)]
    {
      energy := Min(energy + energyAmount, MaxEnergy);
      RaiseTrust(helper, HelpReward);
    }

    /** Gives amount of energy to other when the agent has more than that. */
    method ShareEnergyWith(other: Agent, amount: real)
      requires Valid() && other.Valid() && other != this && amount >= 0.0
      modifies this`energy, other`energy, other`relationships
      ensures Valid() && other.Valid()
      ensures old(energy) > amount ==>
        && energy == old(energy) - amount
        && other.energy == Min(old(other.energy) + amount, MaxEnergy)
        && other.relationships == old(other.relationships)[this := Raised(TrustOf(old(other.relationships), this), HelpReward)]
      ensures old(energy) <= amount ==>
        energy == old(energy) && other.energy == old(other.energy)
        && other.relationships == old(other.relationships)
    {
      if energy > amount {
        energy := energy - amount;
        other.ReceiveHelp(this, amount);
      }
    }

    /** The needs the agent reports: a stat below half its maximum. */
    function NeedsResource(): (n: Needs)
      reads this
      ensures n.food <==> energy < MaxEnergy * 0.5
      ensures n.water <==> hydration < MaxHydration * 0.5
    {
      Needs(energy < MaxEnergy * 0.5, hydration < MaxHydration * 0.5)
    }

    /** Whether either banked stock is large enough to trade: exactly when
        a trade of that stock would move more than 20 units. */
    function CanTrade(): (b: bool)
      reads this
      ensures b <==> TradeAmount(storedFood) > 20.0 || TradeAmount(storedWater) > 20.0
    {
      storedFood > 20.0 || storedWater > 20.0
    }

    /** Whether both stats are above 85% of their maximum. */
    function CanReproduce(): (b: bool)
      reads this
      ensures b ==> !NeedsResource().food && !NeedsResource().water
    {
      energy > MaxEnergy * 0.85 && hydration > MaxHydration * 0.85
    }

    /** Barter: for each resource other needs and this agent banks more than
        20 of, up to 30 units move to other's stat (capped at its maximum)
        and this agent's trust in other rises by half the help reward. */
    method Trade(other: Agent)
      requires Valid() && other.Valid() && other != this
      modifies this`storedFood, this`storedWater, this`relationships, other`energy, other`hydration
      ensures Valid() && other.Valid()
      ensures var n := old(other.NeedsResource());
        var giveFood := n.food && old(storedFood) > 20.0;
        var giveWater := n.water && old(storedWater) > 20.0;
        && storedFood == (if giveFood then old(storedFood) - TradeAmount(old(storedFood)) else old(storedFood))
        && other.energy == (if giveFood then Min(old(other.energy) + TradeAmount(old(storedFood)), MaxEnergy)
                            else old(other.energy))
        && storedWater == (if giveWater then old(storedWater) - TradeAmount(old(storedWater)) else old(storedWater))
        && other.hydration == (if giveWater then Min(old(other.hydration) + TradeAmount(old(storedWater)), MaxHydration)
                               else old(other.hydration))
        && relationships == (if giveFood || giveWater
                             then old(relationships)[other := TradeTrust(TrustOf(old(relationships), other), giveFood, giveWater)]
                             else old(relationships))
    {
      var n := other.NeedsResource();
      if n.food || n.water {
        if n.food && storedFood > 20.0 {
          GiveFood(other);
        }
        if n.water && storedWater > 20.0 {
          GiveWater(other);
        }
      }
    }

    /** The food half of a trade: up to 30 banked food becomes other's
        energy, and trust in other rises. */
    method GiveFood(other: Agent)
      requires Valid() && other.Valid() && other != this && storedFood > 20.0
      modifies this`storedFood, this`relationships, other`energy
      ensures Valid() && other.Valid()
      ensures storedFood == old(storedFood) - TradeAmount(old(storedFood))
      ensures other.energy == Min(old(other.energy) + TradeAmount(old(storedFood)), MaxEnergy)
      ensures relationships == old(relationships)[other := Raised(TrustOf(old(relationships), other), HelpReward * 0.5)]
    {
      var tradeAmount := TradeAmount(storedFood);
      storedFood := storedFood - tradeAmount;
      other.energy := Min(other.energy + tradeAmount, MaxEnergy);
      RaiseTrust(other, HelpReward * 0.5);
    }

    /** The water half of a trade: up to 30 banked water becomes other's
        hydration, and trust in other rises. */
    method GiveWater(other: Agent)
      requires Valid() && other.Valid() && other != this && storedWater > 20.0
      modifies this`storedWater, this`relationships, other`hydration
      ensures Valid() && other.Valid()
      ensures storedWater == old(storedWater) - TradeAmount(old(storedWater))
      ensures other.hydration == Min(old(other.hydration) + TradeAmount(old(storedWater)), MaxHydration)
      ensures relationships == old(relationships)[other := Raised(TrustOf(old(relationships), other), HelpReward * 0.5)]
    {
      var tradeAmount := TradeAmount(storedWater);
      storedWater := storedWater - tradeAmount;
      other.hydration := Min(other.hydration + tradeAmount, MaxHydration);
      RaiseTrust(other, HelpReward * 0.5);
    }

    /** Trust in other raised by reward, starting from the default for a
        stranger. */
    method RaiseTrust(other: Agent, reward: real)
      requires Valid() && 0.0 <= reward
      modifies this`relationships
      ensures Valid()
      ensures relationships == old(relationships)[other := Raised(TrustOf(old(relationships), other), reward)]
    {
      if other !in relationships {
        relationships := relationships[other := InitialTrust];
      }
      relationships := relationships[other := Raised(relationships[other], reward)];
    }

    /** Reproduction costs 30 energy and 30 hydration. */
    method ConsumeForReproduction()
      requires Valid()
      modifies this`energy, this`hydration
      ensures Valid()
      ensures energy == old(energy) - 30.0 && hydration == old(hydration) - 30.0
    {
      energy := energy - 30.0;
      hydration := hydration - 30.0;
    }

    /** Takes newHome as home and stops looking for one. */
    method SetHome(newHome: Homes.Home)
      modifies this`home, this`wantsHome
      ensures home == newHome && !wantsHome
    {
      home := newHome;
      wantsHome := false;
    }

    /** Takes up the specialization learnt from a successful neighbour. */
    method AdoptSpecialization(newSpec: Specialization)
      modifies this`specialization
      ensures specialization == newSpec
    {
      specialization := newSpec;
    }

    /** A newborn: traits are the parents' mean (or this agent's own) plus
        a jitter, clamped; age 0, a child, linked to its parents. */
    method CreateOffspring(partner: Agent?, birthPosition: Vec, newId: int, specRoll: real,
                           generosityDraw: real, braveryDraw: real, sociabilityDraw: real)
      returns (offspring: Agent)
      requires Valid() && (partner != null ==> partner.Valid()) && partner != this
      requires 0.0 <= generosityDraw < 1.0 && 0.0 <= braveryDraw < 1.0 && 0.0 <= sociabilityDraw < 1.0
      modifies this`children, (if partner == null then {} else {partner})`children
      ensures Valid() && (partner != null ==> partner.Valid())
      ensures fresh(offspring) && offspring.Valid()
      ensures offspring.id == newId && offspring.position == birthPosition
      ensures offspring.age == 0.0 && offspring.lifeStage == Child && !offspring.isDead
      ensures offspring.OutsetOf() == InitialOutset
      ensures offspring.parent1 == this && offspring.parent2 == partner
      ensures offspring.specialization == SpecializationFromRoll(specRoll)
      ensures partner != null ==>
        && offspring.generosity == Inherited((generosity + partner.generosity) / 2.0, generosityDraw, 0.1)
        && offspring.bravery == Inherited((bravery + partner.bravery) / 2.0, braveryDraw, 0.1)
        && offspring.sociability == Inherited((sociability + partner.sociability) / 2.0, sociabilityDraw, 0.1)
      ensures partner == null ==>
        && offspring.generosity == Inherited(generosity, generosityDraw, 0.15)
        && offspring.bravery == Inherited(bravery, braveryDraw, 0.15)
        && offspring.sociability == Inherited(sociability, sociabilityDraw, 0.15)
      ensures children == old(children) + [offspring]
      ensures partner != null ==> partner.children == old(partner.children) + [offspring]
    {
      var g, b, s;
      if partner != null {
        g := Inherited((generosity + partner.generosity) / 2.0, generosityDraw, 0.1);
        b := Inherited((bravery + partner.bravery) / 2.0, braveryDraw, 0.1);
        s := Inherited((sociability + partner.sociability) / 2.0, sociabilityDraw, 0.1);
      } else {
        g := Inherited(generosity, generosityDraw, 0.15);
        b := Inherited(bravery, braveryDraw, 0.15);
        s := Inherited(sociability, sociabilityDraw, 0.15);
      }
      offspring := new Agent.Newborn(birthPosition, newId, specRoll, g, b, s, this, partner);
      children := children + [offspring];
      if partner != null {
        partner.children := partner.children + [offspring];
      }
    }
  }

  /** Trust after a trade that gave food, water or both: half the help
      reward for each, capped at full trust. */
  function TradeTrust(trust: real, gaveFood: bool, gaveWater: bool): (t: real)
    ensures trust <= 1.0 ==> t <= 1.0
    ensures 0.0 <= trust ==> 0.0 <= t
    ensures !gaveFood && !gaveWater ==> t == trust
  {
    var afterFood := if gaveFood then Raised(trust, HelpReward * 0.5) else trust;
    if gaveWater then Raised(afterFood, HelpReward * 0.5) else afterFood
  }
}
