# SocietySim simulation core in Dafny

This project models the simulation engine of SocietySim, an
artificial-life sandbox. Agents wander a large world. They gather berries
and water, bank the surplus, and claim homes that produce food and water
over time. They trade with and help the neighbours they trust, age through
childhood, adulthood and old age, and die of old age or starvation. The
dead leave corpses that rot and upset the living nearby.

Footsteps wear footpaths into a tile grid:
- a tile visited by two agents within ten seconds becomes a potential road;
- a potential road with at least two road neighbours percolates into a
  permanent road;
- footpaths and roads speed walkers up.

The modules follow the program's classes:

- `Common` holds the shared vocabulary: positions, the world rectangle,
  clamps, squared distances and the float-to-int cast.
- `Roads` holds the value side of the road graph: tile keys, the 8-tile
  neighbourhood, connection counts, visitor pruning, footpath intensity
  and decay, and the speed multiplier.
- `Foods`, `Waters`, `Woods`, `Corpses` and `Homes` each hold one class:
  a berry bush, a drinking spot, a tree, a corpse and a household. Each
  class has the fields the program updates in place, and methods that
  rewrite them.
- `Agents` holds the `Agent` class:
  - its per-tick decision step, split into the phases the program runs in
    order: sleep, wellbeing and timers, unloading, drawing from home,
    gathering, movement, consumption, ageing and death, then emotions;
  - the trust ledger and the social operations;
  - reproduction.
- `AgentBounds` holds the agent's caps and the ranges its fields keep
  between steps, the invariant of the `Agent` class.
- `Worlds` holds the `World` class:
  - the clock and the time-of-day queries;
  - the boundary clamp and the nearest-resource searches;
  - the corpse mood penalty;
  - the road-formation graph, with footsteps and percolation;
  - footpath decay;
  - dead-agent reaping, partner search and interaction;
  - the node phase of a tick.

Conventions:
- Quantities are `real`.
- Every radius test is a comparison of squared distances.
- Every random number the program draws is a parameter.
- What an agent asks the world for is a parameter of the agent's step:
  - whether it is night;
  - the nearest available food and water;
  - the position reached by steering;
  - the world rectangle;
  - the corpse mood penalty.
- What the step reports back to the world is a result:
  - whether it slept;
  - whether the learning timer fired;
  - whether it died;
  - the footstep to record.

## Model

| member | source | states |
|---|---|---|
| Common.Clamp | Agent.cs:140 | the result lies in [lo, hi]; a value already inside is kept, one below gives lo, one above gives hi |
| Common.ClampToRect | World.cs:741-777 | the result lies inside the rectangle; a point already inside is unchanged; each coordinate that crossed a side is snapped to that side |
| Common.SquaredComparison | World.cs:692-732 | for non-negative d and r, d < r exactly when d squared < r squared, so squared-distance tests decide like distance tests |
| Common.DistSqSymmetric | Corpse.cs:84-87 | the squared distance does not depend on the order of the two points |
| Common.Trunc | World.cs:245-246 | the float-to-int cast truncates toward zero: for a non-negative value the result is its floor, for a negative one its ceiling |
| Roads.TileOf | World.cs:401-404 | each tile coordinate brackets the position within one 32-unit cell on the side of zero the position lies on |
| Roads.ColumnZeroIsDoubleWidth | World.cs:401-404 | for every position, the column is 0 exactly when x lies strictly between -32 and 32, so truncation gives column 0 twice the width of the others |
| Roads.Neighbours | World.cs:452-458 | exactly 8 distinct tiles, every one adjacent to the tile, and every adjacent tile among them |
| Roads.CountIn | World.cs:461-463 | the count is at most the length; it is 0 exactly when no tile is a road and the full length exactly when all are |
| Roads.CountInMonotone | World.cs:461-463 | a larger road set never gives a smaller connection count |
| Roads.ConnectedNeighbours | World.cs:461-463 | a tile has at most 8 connected neighbours |
| Roads.PromotableFromTwo | World.cs:466 | any two distinct adjacent road tiles make a tile promotable |
| Roads.TwoMembersCount | World.cs:461-466 | two distinct positions holding road tiles give a count of at least 2 |
| Roads.SettledAroundShrinks | World.cs:471-477 | once no potential neighbour of a permanent tile is promotable, this stays so when the potential set shrinks |
| Roads.GrownFromExtend | World.cs:469-478 | a run of promotions that spreads from a tile stays so when the run started at a neighbour of that tile is appended |
| Roads.ReachedFromRoot | World.cs:466-478 | a tile followed by promotions spreading from it is a run that starts at the tile |
| Roads.SubsetCardinality | World.cs:468-477 | a subset is never larger, so each recursive check works on a potential set smaller than its caller's |
| Roads.Visited | World.cs:412-425 | the caller's entry holds the current time; every kept entry is at most 10 seconds old; other kept entries are unchanged; every entry no older than 10 seconds is kept |
| Roads.Bumped | World.cs:438-445 | the new intensity is the old one plus 0.05 or the cap 1; it never decreases below the old value and is at least 0.05 |
| Roads.DecayedPaths | World.cs:381-390 | each kept intensity is the old one times 0.999; a key is kept exactly when that product is at least 0.01; with all inputs at most 1, every kept value lies in [0.01, 1] |
| Roads.SpeedBoost | World.cs:803-834 | 1.5 on a permanent tile; 1 + 0.5 i on a footpath of intensity i above 0.5; 1 when the tile has no footpath or one of intensity at most 0.5; always in [1, 1.5] when intensities are at most 1 |
| Foods.EffectiveRegenTime | Food.cs:39 | the regrowth time is at least 30 s for non-negative pressure and exactly 30 s at zero pressure |
| Foods.RegenTimeMonotone | Food.cs:39 | more harvest pressure never shortens regrowth |
| Foods.HarvestAddsRegenTime | Food.cs:28-39 | for every pressure, one more unit of harvest pressure lengthens regrowth by exactly 15 s |
| Foods.DecayedPressure | Food.cs:49 | the pressure falls by 0.1 per second and never below 0, and never rises |
| Foods.Food.constructor | Food.cs:8-22 | a new bush is available, with timer and pressure 0 |
| Foods.Food.Consume | Food.cs:24-29 | consumed, timer 0 and one more unit of pressure, whatever the previous state |
| Foods.Food.Update | Food.cs:31-50 | pressure decays; an available bush stays available; a consumed bush regrows exactly when its timer reaches the pressure-scaled time, with the timer then reset; no bush regrows within 30 s of accumulated time |
| Waters.EffectiveRegenTime | Water.cs:39 | the refill time is at least 20 s for non-negative pressure and exactly 20 s at zero pressure |
| Waters.RegenTimeMonotone | Water.cs:39 | more use never shortens refilling |
| Waters.DecayedPressure | Water.cs:49 | the pressure falls by 0.15 per second and never below 0, and never rises |
| Waters.Water.constructor | Water.cs:8-22 | a new spot is available, with timer and pressure 0 |
| Waters.Water.Consume | Water.cs:24-29 | consumed, timer 0 and one more unit of pressure, whatever the previous state |
| Waters.Water.Update | Water.cs:31-50 | pressure decays; an available spot changes in nothing else; a used spot refills exactly when its timer reaches the pressure-scaled time; none refills within 20 s |
| Woods.RequiredTime | Wood.cs:29 | the regrowth time is 45 + 10 per harvest, capped at 180, so it always lies in [45, 180] |
| Woods.RequiredTimeMonotone | Wood.cs:29 | more harvests never shorten regrowth |
| Woods.Wood.constructor | Wood.cs:8-20 | a new tree is standing, with timer 0 and no harvests |
| Woods.Wood.Update | Wood.cs:22-37 | the harvest count never changes; a standing tree is untouched; a stump regrows exactly when its timer reaches the required time; none regrows within 45 s |
| Woods.Wood.Harvest | Wood.cs:39-48 | a standing tree yields 5, becomes a stump and counts one more harvest; a stump yields 0 and is left alone; the count never decreases; a standing tree keeps a zero timer |
| Corpses.RotLevel | Corpse.cs:30-33 | the rot level lies in [0, 1]: 0 at time 0, 1 from 120 s on, and proportional in between |
| Corpses.MoodPenalty | Corpse.cs:35-39 | the penalty lies in [-0.3, 0] and is -0.3 times the rot level |
| Corpses.RotMonotone | Corpse.cs:30-39 | with more rotten time the rot level never falls and the penalty never rises |
| Corpses.Corpse.constructor | Corpse.cs:16-20 | a new corpse keeps its position and cause of death, is fresh and unburied |
| Corpses.Corpse.Update | Corpse.cs:22-28 | an unburied corpse rots by dt, a buried one not at all; burial never reverts; the rot level never falls and is frozen once buried |
| Corpses.Corpse.GetRotLevel | Corpse.cs:30-33 | the rot level lies in [0, 1] |
| Corpses.Corpse.GetMoodPenalty | Corpse.cs:35-39 | the penalty lies in [-0.3, 0] and is -0.3 times the rot level |
| Corpses.Corpse.Bury | Corpse.cs:41-44 | after burial the corpse is buried, whatever it was before, and its rot time is unchanged |
| Corpses.Corpse.AffectsMood | Corpse.cs:84-87 | a buried corpse affects nobody; an unburied one affects exactly the positions closer than 150 |
| Homes.Stored | Home.cs:77-81 | a stock after storing is the sum or the cap 200, never above the cap and never below the old stock |
| Homes.Withdrawn | Home.cs:83-89 | a withdrawal is the request or the whole stock, at most both and non-negative |
| Homes.Produced | Home.cs:39-66 | a full stock is left alone; otherwise the amount is stored with saturation |
| Homes.StoreThenWithdraw | Home.cs:77-89 | storing then withdrawing hands out at most the request, leaves a non-negative stock, loses nothing without saturation, and empties the stock when it falls short of the request |
| Homes.Home.constructor | Home.cs:22-26 | a new home has empty stores and a zero production timer |
| Homes.Home.Update | Home.cs:28-69 | without an owner nothing changes; below 10 s the timer just advances; at 10 s it resets and each stock receives its yield for the owner's specialization, capped at 200 |
| Homes.Home.CanStore | Home.cs:72-75 | true exactly when storing both amounts saturates neither stock |
| Homes.Home.StoreResources | Home.cs:77-81 | each stock becomes its saturated sum and the timer is untouched |
| Homes.Home.WithdrawResources | Home.cs:83-89 | each amount handed out is the lesser of request and stock, and each stock falls by exactly that amount, never below 0 |
| Homes.FoodYield | Home.cs:37-66 | 15 for a farmer, 7.5 for a generalist, none exactly for a well digger |
| Homes.WaterYield | Home.cs:37-66 | the mirror of the food yield; the two yields always add up to 15 |
| Agents.StageOf | Agent.cs:461-473 | a child exactly below 172800 s of age, an elder exactly from 777600 s on, otherwise an adult |
| Agents.StageNeverReverts | Agent.cs:458-473 | growing older never moves an agent back to an earlier stage |
| Agents.DeathCauseOf | Agent.cs:475-489 | old age from 1209600 s, checked before starvation; starvation when energy and hydration are both exhausted; no death exactly otherwise |
| Agents.FillThenBank | Agent.cs:272-281 | the stat stays within its maximum and the bank within its cap; nothing is banked until the stat is full; nothing is created; nothing is lost unless both are full |
| Agents.Drained | Agent.cs:451-455 | a drained level is never negative; it is the level minus the drain or 0, and never above the old level |
| Agents.Raised | Agent.cs:680-683 | raised trust is capped at 1, never falls for a non-negative reward, and is the sum or 1 |
| Agents.WithEntry | Agent.cs:689-692 | the ledger gains the default 0.5 for a stranger, keeps every existing entry, and gains no other key |
| Agents.TradeAmount | Agent.cs:730 | a trade moves 30 or the whole stock, at most both, and more than 20 whenever the stock exceeds 20 |
| Agents.WellBeingOf | Agent.cs:164-167 | wellbeing lies in [0, 1] |
| Agents.WellBeingMonotone | Agent.cs:164-167 | more energy, more water, a home or a larger bank never lowers wellbeing |
| Agents.Relaxed | Agent.cs:494-500 | with a rate in [0, 1], one step of relaxation lands between the current value and the target |
| Agents.ScaledBetween | Agent.cs:494-500 | a difference scaled by a rate in [0, 1] lies between 0 and the difference |
| Agents.JitterBound | Agent.cs:783-801 | a centred jitter of a uniform draw stays within half the spread |
| Agents.Inherited | Agent.cs:783-801 | an inherited trait lies in [0, 1], and within half the spread of the parents' value when that value lies in [0, 1] |
| Agents.SpecializationFromRoll | Agent.cs:110-113 | a farmer exactly for rolls below 0.4, a generalist exactly from 0.8 on, otherwise a well digger |
| Agents.TimedOutcome | Agent.cs:163-185 | wellbeing lies in [0, 1]; the learning timer restarts exactly when it reaches 15 s and otherwise advances by dt; the specialization changes only when the timer fired, and then to the learnt one; a homeless agent's timer advances by dt, a housed agent's timers are untouched; wanting a home is never given up |
| Agents.AgedOutcome | Agent.cs:458-500 | age advances by dt; when a cause of death applies at the new age and stats the agent is dead with that cause; otherwise the death state is kept; happiness and stress stay in [0, 1] for steps of at most 2 s |
| Agents.TradeTrust | Agent.cs:733-750 | trust after a trade stays within [0, 1] and is unchanged when nothing was given |
| Agents.Agent.constructor | Agent.cs:10-123 | full stats; traits in [0.2, 0.8]; an age within childhood; the requested or rolled specialization; no parents; and the initial outset of the field initialisers: empty banks, ledger and children, no home, awake with sleepiness 0, not gathering, every timer at zero, no wish for a home, wellbeing 0.5, happiness 0.7, stress 0.2, alive with no cause of death |
| Agents.Agent.UpdateSleep | Agent.cs:127-151 | alive time advances by dt; sleepiness rises by 0.3 per second at night and falls by 0.2 per second by day, clamped to [0, 1]; sleep starts at night above 0.6 within 50 of home, ends by day or below 0.3, and is otherwise kept; energy, hydration and every other field are unchanged |
| Agents.Agent.Doze | Agent.cs:153-161 | a sleeping step drains energy by 0.1 and hydration by 0.05 per second without flooring them, and changes nothing else |
| Agents.Agent.TickSleepiness | Agent.cs:130-140 | sleepiness rises at night, falls by day, and stays in [0, 1] |
| Agents.Agent.UpdateWellBeing | Agent.cs:163-167 | wellbeing is recomputed from the current stats, home and bank, and keeps the agent's ranges |
| Agents.Agent.TickLearning | Agent.cs:169-175 | the learning step fires exactly when the timer reaches 15 s; the timer then restarts and the agent takes up the learnt specialization, if any; otherwise the timer advances by dt and the specialization is kept |
| Agents.Agent.TickHomelessness | Agent.cs:177-185 | only a homeless agent's timer runs, and it wants a home once the timer passes 5 s |
| Agents.Agent.ReturnCargo | Agent.cs:187-213 | with over 40 of either stock and a home, the agent heads home when farther than 20; otherwise it unloads both stocks into home storage, saturating there; without cargo nothing changes; the home's production timer is never touched |
| Agents.Agent.DrawFromHome | Agent.cs:215-233 | within 50 of home, a stat below half its maximum takes up to 30 from storage, capped at the maximum, and storage falls by exactly what was taken; elsewhere nothing changes; the home's production timer is never touched |
| Agents.Agent.SeekResources | Agent.cs:235-374 | the agent seeks exactly when it seeks food and a bush is available, or water and a spot is available; seeking food gathers at the bush and leaves hydration, the water bank and the spot untouched; seeking water drinks at the spot and leaves energy, the food bank, the gathering state and the bush untouched; not seeking changes none of these |
| Agents.Agent.GatherFood | Agent.cs:240-312 | near a bush the gathering timer runs, and at 1.5 s the bush is harvested with fill-then-bank and the timer reset; away from it the timer resets and nothing is eaten |
| Agents.Agent.AdvanceGathering | Agent.cs:259-266 | the timer starts at 0 when the agent was not gathering, then advances by dt; the harvest is due exactly from 1.5 s |
| Agents.Agent.Harvest | Agent.cs:269-288 | energy and bank become the fill-then-bank outcome of 50 units, and the bush is consumed with one more unit of pressure |
| Agents.Agent.DrinkWater | Agent.cs:317-363 | within 15 of the spot the agent drinks 40 units with fill-then-bank and the spot is consumed; farther away nothing changes |
| Agents.Agent.Metabolize | Agent.cs:443-456 | energy drains by 0.4 and hydration by 0.3 per second, 20% less within 100 of home, each floored at 0 |
| Agents.Agent.AgeAndCheckDeath | Agent.cs:458-489 | age advances by dt; the stage follows the age; death happens exactly when a cause applies, with that cause recorded; otherwise the death state is untouched |
| Agents.Agent.UpdateEmotions | Agent.cs:491-500 | happiness relaxes toward wellbeing plus the corpse penalty at rate dt/2 and stress toward the shortfall minus the penalty at rate 0.3 dt, each target clamped to [0, 1]; both stay in [0, 1] for steps of at most 2 s |
| Agents.Agent.ResolveNeeds | Agent.cs:163-374 | the awake phases before movement: the learning step fires exactly when due, and wellbeing, timers and specialization are the timed outcome of the state before the step; age, death, emotions and the sleep state are untouched; every range of the agent and of the nodes it touches is kept |
| Agents.Agent.TickTimers | Agent.cs:163-185 | wellbeing, the learning and homelessness timers, the specialization and the wish for a home are the timed outcome of the state before the step, and the learning step fires exactly when due |
| Agents.Agent.UseHomeAndGather | Agent.cs:187-374 | unloading, drawing and gathering keep every range of the agent, its home and the nodes it uses |
| Agents.Agent.Update | Agent.cs:125-501 | alive time advances and the sleep decision is taken; a sleeping step drains energy and hydration at 0.1 and 0.05 per second without flooring them, reports no learning, death or footstep, and leaves every other field of the agent, its home and the nodes unchanged; an awake step has the outcomes stated for Awake |
| Agents.Agent.Awake | Agent.cs:163-501 | the awake step: wellbeing and timers are the timed outcome and learning fires exactly when due; the position is the moved one clamped into the world; energy and hydration end non-negative; age, death and emotions are the aged outcome; the stage follows the age; death is reported exactly when a cause applies; a footstep exactly when walking, at the moved position; the sleep state is untouched |
| Agents.Agent.MoveAndAge | Agent.cs:376-501 | the position is the moved one clamped into the world, with a footstep exactly when walking; energy and hydration drain at 0.4 and 0.3 per second times the drain rate, floored at 0; age, death and emotions are the aged outcome; the stage follows the age; death is reported exactly when a cause applies; timers and sleep state are untouched |
| Agents.Agent.Move | Agent.cs:402-441 | the footstep is taken at the moved position with the agent's own alive time, exactly when walking, and the position is then clamped into the world |
| Agents.Agent.Live | Agent.cs:443-501 | energy and hydration drain at 0.4 and 0.3 per second times the drain rate, floored at 0; age, death and emotions are the aged outcome, so a dead agent's emotions are untouched; the stage follows the age; death is reported exactly when a cause applies |
| Agents.Agent.DrainRate | Agent.cs:445-449 | the consumption rate is 0.8 exactly within 100 of home and 1 otherwise |
| Agents.Agent.WillHelp | Agent.cs:687-696 | a stranger is entered at trust 0.5, no existing entry changes, and the answer is yes exactly when the draw is below the trust |
| Agents.Agent.ReceiveHelp | Agent.cs:675-685 | energy rises by the gift, capped at the maximum, and trust in the helper rises by 0.3 from its value or from 0.5, capped at 1 |
| Agents.Agent.ShareEnergyWith | Agent.cs:698-705 | energy moves only when the giver has more than the amount; the giver loses exactly the amount and the receiver gains it, capped, with trust in the giver raised; otherwise nothing changes |
| Agents.Agent.NeedsResource | Agent.cs:709-714 | food is needed exactly below half the maximum energy, water exactly below half the maximum hydration |
| Agents.Agent.CanTrade | Agent.cs:716-721 | trading is possible exactly when a trade of either stock would move more than 20 units |
| Agents.Agent.CanReproduce | Agent.cs:826 | an agent able to reproduce needs neither food nor water |
| Agents.Agent.Trade | Agent.cs:723-752 | for each resource the partner needs while this agent banks more than 20, up to 30 units leave the bank and the partner's stat rises, capped at its maximum; trust rises by 0.15 per resource given, capped at 1; nothing else changes |
| Agents.Agent.GiveFood | Agent.cs:727-737 | up to 30 banked food becomes the partner's energy, capped, and trust rises by 0.15 |
| Agents.Agent.GiveWater | Agent.cs:740-750 | up to 30 banked water becomes the partner's hydration, capped, and trust rises by 0.15 |
| Agents.Agent.RaiseTrust | Agent.cs:680-683 | the ledger entry becomes the raised trust, starting from 0.5 for a stranger, and stays in [0, 1] |
| Agents.Agent.ConsumeForReproduction | Agent.cs:766-771 | reproduction costs exactly 30 energy and 30 hydration, and the agent keeps its ranges, which put no floor under either stat |
| Agents.Agent.SetHome | Agent.cs:754-758 | the agent takes the home and stops wanting one |
| Agents.Agent.AdoptSpecialization | Agent.cs:818-822 | the agent takes the learnt specialization |
| Agents.Agent.Newborn | Agent.cs:775-812 | the newborn takes the given traits and parents, age 0 and the child stage, and otherwise starts from the initial outset: full stats, empty banks, ledger and children, no home, awake, not gathering, timers at zero, wellbeing 0.5, happiness 0.7, stress 0.2, alive |
| Agents.Agent.CreateOffspring | Agent.cs:773-816 | a fresh offspring with traits inherited from the parents' mean, or from this agent alone, each in [0, 1]; age 0, a child, this agent as first parent; otherwise the initial outset, so full stats, empty banks, ledger and children, and no home; appended to this agent's children and to the partner's when there is one |
| Worlds.DayFraction | World.cs:840-844 | the time of day lies in [0, 1) for non-negative world time |
| Worlds.DayFractionPeriodic | World.cs:840-844 | the time of day repeats every 120 s |
| Worlds.MidnightAndNoon | World.cs:846-851 | midnight of every day is night and noon is day |
| Worlds.NightHours | World.cs:846-851 | on every day, night holds exactly during the first 30 s and after 0.833 of the 120 s day |
| Worlds.YearOfDay | World.cs:244-246 | the year counter is the day counter in groups of twelve |
| Worlds.TruncMonotone | World.cs:245-246 | the day and year counters never go back |
| Worlds.Survivors | World.cs:254 | removal keeps only living agents and never grows the list |
| Worlds.DeadOf | World.cs:249-253 | the dead and the survivors together account for every agent; every reaped agent is dead; none is reaped exactly when all are alive |
| Worlds.SurvivorsIdempotent | World.cs:254 | removing the dead twice is removing them once |
| Worlds.SurvivorsAreTheLiving | World.cs:254 | an agent survives removal exactly when it was in the list and alive |
| Worlds.DeadOfAreTheDead | World.cs:249-253 | an agent is reaped exactly when it was in the list and dead |
| Worlds.RemovalLosesCorpses | World.cs:340 | when any agent is dead, removing the dead first leaves nothing for reaping to turn into a corpse, although there was a dead agent |
| Worlds.CorpsePenaltyAt | World.cs:892-904 | the total penalty lies between -0.3 per corpse and 0 |
| Worlds.BuriedCorpseStillCounts | World.cs:892-904 | a buried, fully rotten corpse next to a position still costs the full -0.3, although by its own account it affects nobody |
| Worlds.World.constructor | World.cs:50-78 | a new world starts on day 1 of year 1, with no homes, corpses or roads, and the spawned agents and nodes |
| Worlds.World.GetTimeOfDay | World.cs:840-844 | the time of day lies in [0, 1) |
| Worlds.World.IsNightTime | World.cs:846-851 | for non-negative world time, night holds exactly when the time into the current day is below 30 s or above 0.833 of the day |
| Worlds.World.AdvanceClock | World.cs:244-246 | world time advances by dt; day and year counters agree with it, never go back, and the year is the day in groups of twelve |
| Worlds.World.WorldRect | World.cs:741-751 | the world rectangle is well formed, 8000 by 5600, and centred on the screen centre |
| Worlds.World.CheckWorldBoundary | World.cs:741-777 | the clamped position lies in the world; changed holds exactly when a coordinate moved, exactly when the position was outside, so a second call on the result reports no change |
| Worlds.World.FindNearestFood | World.cs:692-710 | none exactly when every bush is consumed; otherwise an available bush at minimal distance, the first such in list order |
| Worlds.World.FindNearestWater | World.cs:713-731 | none exactly when every spot is used; otherwise an available spot at minimal distance, the first such in list order |
| Worlds.World.GetCorpseMoodPenalty | World.cs:892-904 | the loop sums the penalties of the corpses within 150, buried or not, and the total lies between -0.3 per corpse and 0 |
| Worlds.World.GetPathSpeedBoost | World.cs:803-834 | 1.5 on a permanent road; 1 + 0.5 i on a footpath of intensity i above 0.5; 1 without a footpath; always in [1, 1.5] |
| Worlds.World.RecordFootstep | World.cs:399-446 | a footstep on a permanent road changes nothing; the second recent visitor turns the tile into a road, dropping its visitors and footpath, the tile becomes permanent exactly when promotable, every promoted tile is promotable with percolation around it complete, and the promoted tiles form a run that starts at the tile and spreads through neighbours; otherwise the visit is recorded and the footpath deepens; permanent roads are never removed |
| Worlds.World.MakePotentialRoad | World.cs:428-435 | the tile joins the roads with its visitors and footpath dropped; it is permanent exactly when promotable; every promoted tile is promotable with percolation around it complete; the promoted tiles form a run that starts at the tile and spreads through neighbours |
| Worlds.World.CheckAndPromoteToPermanentRoad | World.cs:449-480 | the union of the road sets never changes; potential only shrinks and permanent only grows; the tile is promoted exactly when it has at least 2 road neighbours, and nothing changes otherwise; every promoted tile obeys the rule with percolation around it complete; the promotions start at the tile and each later one neighbours an earlier one; the recursion terminates because the potential set shrinks |
| Worlds.World.PercolateAround | World.cs:469-478 | after each potential neighbour is checked in turn, no potential neighbour of the tile is promotable; every promoted tile obeys the rule; the promotions spread from the tile through neighbours |
| Worlds.World.DecayPaths | World.cs:381-390 | the loop leaves exactly the decayed intensity map, so every retained intensity stays in [0.01, 1] |
| Worlds.World.ReapDead | World.cs:248-254 | each dead agent becomes a fresh, unburied corpse at its position with its cause of death, in order, after the existing corpses; exactly the living agents remain |
| Worlds.World.SpawnCorpses | World.cs:249-253 | one fresh corpse per dead agent is appended, in order, with its position and cause |
| Worlds.World.RemoveDead | World.cs:340 | the dead are dropped with no corpse for them, and no dead agent remains |
| Worlds.World.FindPartner | World.cs:259-283 | the first other agent within 50, in list order, or none when no other agent is that close |
| Worlds.World.Interact | World.cs:266-279 | trade and energy gift keep both agents' ranges; ledgers gain at most the partner; without stock to trade and without the gift condition nothing changes |
| Worlds.World.BeginTick | World.cs:243-254 | the clock advances by dt; the agents dead since the previous tick are reported and dropped, exactly the living remain; one fresh, unburied corpse per dead agent, at its position with its cause, is appended in order after the existing corpses |
| Worlds.World.FinishTick | World.cs:339-390 | as written: the agents that died during the tick are dropped, exactly the living remain, and no corpse is added for them; every node keeps its invariant and the footpaths decay |
| Worlds.World.FinishTickReaping | World.cs:249-254 | corrected: the agents that died during the tick are dropped and exactly the living remain; the existing corpses are kept in order, followed by one fresh corpse per dead agent, in order, at its position with its cause of death; every node keeps its invariant and the footpaths decay |
| Worlds.World.AdvanceNodes | World.cs:342-390 | every node keeps its invariant and the footpaths decay |
| Worlds.World.TickNodes | World.cs:342-372 | food, water, homes, corpses and trees advance in that order, each keeping its invariant |
| Worlds.World.TickFoods | World.cs:343-346 | every bush keeps its invariant |
| Worlds.World.TickWaters | World.cs:348-351 | every drinking spot keeps its invariant |
| Worlds.World.TickHomes | World.cs:357-360 | every home keeps its invariant |
| Worlds.World.TickCorpses | World.cs:363-366 | every corpse keeps its invariant |
| Worlds.World.TickWoods | World.cs:369-372 | every tree keeps its invariant |

## Left out

- Rendering is not modelled: every `Render` method, the terrain colours, the ambient light and the colour interpolation. They are drawing calls and colour arithmetic.
- The camera, keyboard, mouse and window loop are not modelled (World.cs:220-241, Program.cs). They are input and output.
- `TerrainFeature.cs` and `Particle.cs` are not part of this model, nor are the particle bursts and dust the agent spawns. They are purely visual.
- Spawning helpers, `Resize` and `GenerateTerrain` are not modelled. The world constructor takes the spawned agents and nodes as parameters.
- Steering, normalisation, the speed cap, velocity damping and integration, wander and the facing angle are not modelled (Agent.cs:189-200, 254-307, 376-404, 431-441). They are float vector geometry with square roots. The agent's step takes the position they produce as `moved`, and whether the speed exceeds 10 as `walking`. The bounce of the velocity at the boundary goes with them.
- The random generators are not modelled. Every draw is a parameter: willingness to help, the specialization roll, the trait draws and the offspring jitter.
- `LearnFromNeighbors` (World.cs:779-801) is not modelled. The agent's step reports that its learning timer fired and takes the step's outcome, the specialization learnt if any, as the parameter `learnt`.
- The agent loop of `World.Update` is not modelled as one method. Its pieces are modelled separately:
  - clock and reaping: `BeginTick`;
  - the agent step: `Agent.Update`;
  - the partner search: `FindPartner`;
  - the interaction: `Interact`;
  - the node phase: `FinishTick`, as written, and `FinishTickReaping`, corrected.
  The reproduction roll, the 100-agent cap and home claiming depend on random rolls and location scoring and are not modelled.
- The home owner reference is not stored in the model. `Home.Update` takes the owner's current specialization, or none, as a parameter.
- The process-global id counter is not modelled. Ids are parameters.
- Exact IEEE float rounding is not modelled. Quantities are reals, so 0.999, 0.833 and the float remainder are exact. Squared distances stand in for `Vector2.Distance`.
- The `float.MaxValue` starting distance of the nearest-resource searches is modelled as "no candidate yet". With reals every distance is finite, so the first available node is always taken.
- The nearest-resource searches return an index into the node list rather than a reference to the node.
- `AgentBounds.InRanges`: energy and hydration have no lower bound, because a sleeping step drains them without flooring them at zero.
- Agents.Agent.ShareEnergyWith: requires the receiver to be another agent and the amount to be non-negative. The program calls it only with a partner other than the agent itself and with 15.
- Agents.Agent.Trade: requires the partner to be another agent, as the interaction loop guarantees. A self-trade, with its aliasing, is not modelled.
- Agents.Agent.CreateOffspring: requires the partner not to be the agent itself. The program only calls it without a partner.
- Agents.Agent.UpdateEmotions: the [0, 1] range of happiness and stress is stated only for steps of at most 2 s. With longer steps the relaxation overshoots its target, in the program as in the model.
- Worlds.World.Interact: states that ranges are kept, which ledger keys may appear, and the no-op case. The effect of each branch is stated by `WillHelp`, `Trade` and `ShareEnergyWith`.
- Worlds.World.TickNodes: states only that every node it advances keeps its invariant. Each node's new state is stated by its own `Update`.
- Worlds.World.TickFoods: states only that every node it advances keeps its invariant. Each node's new state is stated by its own `Update`.
- Worlds.World.TickWaters: states only that every node it advances keeps its invariant. Each node's new state is stated by its own `Update`.
- Worlds.World.TickHomes: states only that every node it advances keeps its invariant. Each node's new state is stated by its own `Update`.
- Worlds.World.TickCorpses: states only that every node it advances keeps its invariant. Each node's new state is stated by its own `Update`.
- Worlds.World.TickWoods: states only that every node it advances keeps its invariant. Each node's new state is stated by its own `Update`.
- Agents.Agent.ResolveNeeds: energy, hydration, the banks, the gathering state, the home and the nodes after unloading, drawing and gathering are stated only by their ranges. The effect of each of those phases is stated by its own method.
- Agents.Agent.UseHomeAndGather: states only the kept ranges. The effect of each phase is stated by `ReturnCargo`, `DrawFromHome` and `SeekResources`.
- Agents.Agent.Awake: energy and hydration are stated only as non-negative, and the banks, the home and the nodes only by their ranges, because they pass through the needs phase (see `ResolveNeeds`).
- Agents.Agent.Update: the awake step is stated as for `Awake`, with the same gaps.
- Worlds.World.FinishTick: the node phase is stated only as every node keeping its invariant, plus the footpath decay. Each node's new state is stated by its own `Update`.
- Worlds.World.FinishTickReaping: the node phase is stated as for `FinishTick`, so the new corpses' rot and burial after the phase are not stated.
- Worlds.World.AdvanceNodes: states only that every node keeps its invariant and that the footpaths decay. Each node's new state is stated by its own `Update`.

## Findings

| source | as written | input that shows it | evidently intended | confidence | as-written member | corrected member |
|---|---|---|---|---|---|---|
| World.cs:340 | after the agent phase, `RemoveAll(a => a.IsDead)` drops every agent that died during the phase without creating a corpse, so the corpse creation at the start of the next tick (World.cs:249-253) never sees a dead agent | a single agent whose step ends with its age at or above 1209600 s: it is removed at line 340, and no corpse is ever created for it | every agent that dies becomes a corpse at its position with its cause of death, as the reaping step at World.cs:249-254 does | not executed | Worlds.World.RemoveDead, Worlds.World.FinishTick, Worlds.RemovalLosesCorpses | Worlds.World.ReapDead, Worlds.World.FinishTickReaping |
