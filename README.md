# World simulation

A model, in Dafny, of a yearly world simulation (`WorldSimulation.py`).
Countries grow, burn fuel, trade resources with one another, decide whether
to sign an environment agreement, invest in the economy, the environment or
their infrastructure, change government every four years when they are
unhappy, and rebel when very unhappy. A shared ecosystem averages their
pollution, spreads a tenth of it to every neighbour, sounds a three-level
alarm and strikes the worst polluters with disease, earthquakes and floods.
Each year begins with global events (pandemic, meteor, economic crash,
blackout) and a war phase in which tense pairs of countries may fight. Three
decisions (investing, joining the agreement, going to war) are taken by a
tabular Q-learning agent per country, with an epsilon-greedy choice and a
temporal-difference update.

The modules follow the program's structure:

- `Basics`: truncation, clamping, `max` with a key (first maximum wins).
- `Learning`: the agent's discretised state, its Q-tables and their
  defaulting reads, the choice and the update (`RLAgent`).
- `Countries`: a country's state, its tension scores and diplomatic status.
- `Ecology`: the pure rules of `Ecosystem` (mean and regional pollution,
  the alarm ratchet, the three disasters and whom they strike).
- `Events`: the four global events.
- `Economy`: taxes, trade, the environment agreement and investments.
- `Warfare`: the choice of war candidates, combat, spoils and peace.
- `Turn`: the yearly upkeep of a country (growth, fuel, shortages, forests,
  the ecosystem's feedback, migrations), the four-yearly political check
  and rebellion.
- `Rounds`: the composed effect of a turn, of the war phase, of a year and
  of the whole run, as functions of the state before them.
- `Simulation`: the classes `Country`, `Ecosystem` and `World`, whose
  methods change their fields in place exactly as the program does and are
  proved against the functions above.

Python floats are exact `real`s, Python `int()` is `Basics.Trunc`
(truncation toward zero) and `//` is floor division. Every random draw is a
parameter of the operation that makes it.

## Model

| member | source | states |
|---|---|---|
| Basics.Flipped | WorldSimulation.py:606 | a change of government always yields the other government |
| Basics.Trunc | WorldSimulation.py:134 | `int()` truncates toward zero: for x >= 0, r <= x < r + 1 and r >= 0; for x < 0, r - 1 < x <= r <= 0 |
| Basics.ScaledDown | WorldSimulation.py:260 | `int(n * f)` with n >= 0 and f in 0..1 stays within 0..n, so a proportional loss never exceeds the stock |
| Basics.Clamp | WorldSimulation.py:334 | `min(hi, max(lo, x))` lies in lo..hi, is x inside the range and the nearer bound outside it |
| Basics.ArgMax | WorldSimulation.py:81 | `max(d, key=d.get)`: an index whose value is at least every value and strictly above every earlier one (ties go to the first key) |
| Basics.MaxOver | WorldSimulation.py:84 | `max(d.values())`: a value of some key, and at least every value |
| Basics.MaxIsUnique | WorldSimulation.py:84 | any value of some key that bounds all values is `MaxOver` |
| Learning.Domain | WorldSimulation.py:60-62 | every table has at least one action (the keys of its default row) |
| Learning.DomainSetIsDomain | WorldSimulation.py:60-62 | the spelled-out action set of each table is exactly the key set of its default row |
| Learning.Bin | WorldSimulation.py:65-67 | `min(5, x // 20)`: at most 5, 5 exactly when x >= 100, otherwise x lies in the bin's 20-wide interval; never negative for x >= 0 |
| Learning.ProductionBucket | WorldSimulation.py:68 | `min(5, int(production) // 50)`: at most 5, 5 exactly when production >= 250, never negative for production >= 0 |
| Learning.TensionBucket | WorldSimulation.py:73 | `min(5, max(0, (tension - 50) // 10))`: within 0..5, 0 for tension <= 59, 5 for tension >= 100, and the tension lies in the bucket's 10-wide interval |
| Learning.GetState | WorldSimulation.py:64-75 | six components, seven when a tension is given; each at most 5 and never negative for non-negative inputs; government 0 for right and 1 for left; the tension component is `TensionBucket` |
| Learning.ZeroRow | WorldSimulation.py:60-62 | the default row: exactly the table's actions, each worth 0 |
| Learning.RowOf | WorldSimulation.py:79-84 | reading a row through the defaultdict gives the stored row, or the zero row for a state never seen |
| Learning.Touched | WorldSimulation.py:79 | a defaultdict read inserts the row read (the zero row if absent) and changes no other row |
| Learning.Choose | WorldSimulation.py:77-81 | below epsilon the drawn action; otherwise an action with the largest value, and the first of the largest in key order |
| Learning.Updated | WorldSimulation.py:83-85 | the updated table is well formed and holds exactly the old states plus the current and the next state |
| Learning.UpdateRule | WorldSimulation.py:85 | the updated cell is q + alpha * (reward + gamma * max_next - q), with q and max_next read through the defaults |
| Learning.UpdateFrame | WorldSimulation.py:85 | every other cell of every row reads as before the update |
| Learning.Agent.constructor | WorldSimulation.py:56-62 | a new agent has three empty tables |
| Learning.Agent.Touch | WorldSimulation.py:79 | the read table becomes `Touched` of the old one; the other two tables are unchanged |
| Learning.Agent.ChooseAction | WorldSimulation.py:77-81 | returns `Choose` on the row read before the call; the read inserts that row; the other tables are unchanged |
| Learning.Agent.Update | WorldSimulation.py:83-85 | the table becomes `Updated` of the old one (so `UpdateRule` and `UpdateFrame` hold of it); the other tables are unchanged |
| Countries.Rank | WorldSimulation.py:303 | every resource has a position in the key order oil, coal, gas, forest |
| Countries.Raised | WorldSimulation.py:181 | `regional[name] += amount` adds to that entry only and keeps the key set |
| Countries.RaisedAll | WorldSimulation.py:176-204 | raising the entry of every country in turn keeps the key set |
| Countries.RaisedAllAt | WorldSimulation.py:176-204 | with distinct names each country's entry rises by the amount exactly once and every other entry is kept |
| Countries.RaisedTwice | WorldSimulation.py:533-571 | two additions to one regional entry are one addition of their sum |
| Countries.TensionToward | WorldSimulation.py:325 | `tension_score.get(other, 50)`: the stored score, 50 when there is none, within 0..100 for a sound state |
| Countries.StatusOf | WorldSimulation.py:326-330 | friendly exactly below 30, hostile exactly above 70, neutral exactly within 30..70 |
| Countries.UnsetPartnerIsNeutral | WorldSimulation.py:324-330 | a country with no score toward the other is neutral toward it |
| Countries.WithTension | WorldSimulation.py:332-334 | the partner's score becomes the old score (default 50) plus the change clamped to 0..100; every other score and field is kept; soundness is kept |
| Countries.HostileAfterRise | WorldSimulation.py:324-334 | a score of 60 raised by 15 is 75 and the status becomes hostile |
| Ecology.AlarmRatchet | WorldSimulation.py:116-126 | from a level in 0..3 the alarm rises by exactly one when it is below 3 and global pollution exceeds the next level's threshold (30, 50, 70), and otherwise stays; it never passes 3 |
| Ecology.Severity | WorldSimulation.py:133 | the disaster multiplier is 2 exactly below 50 infrastructure, 0.5 exactly above 70, and 1 exactly within 50..70 |
| Ecology.Disease | WorldSimulation.py:133-136 | only population, happiness and rebellion risk change; population does not grow; happiness falls by 10 times the multiplier, floored at 0; risk rises by 0.05 times the multiplier; soundness is kept |
| Ecology.Earthquake | WorldSimulation.py:140-143 | only population, production and happiness change; population falls by `int(5000 * m)`, floored at 0; production does not grow; happiness falls by 5m, floored at 0 |
| Ecology.Flood | WorldSimulation.py:148-151 | only forest, money and happiness change; forest falls by `int(20 * m)`, floored at 0; happiness falls by 5m, floored at 0; population is kept |
| Ecology.Mean | WorldSimulation.py:98 | the mean of non-negative pollutions is non-negative |
| Ecology.RegionalEntriesAt | WorldSimulation.py:99-104 | after i countries the regional dictionary has exactly their names as keys, each mapped to that country's regional pollution |
| Ecology.UpdateKeepsBounds | WorldSimulation.py:98-104 | the mean pollution of sound countries is non-negative and every country gets a regional entry |
| Ecology.NeighbourShareIsTenth | WorldSimulation.py:103-104 | the neighbours' share is a tenth of the total pollution minus the country's own |
| Ecology.RegionalFormula | WorldSimulation.py:104 | a country's regional pollution is 0.9 times its own plus 0.1 times the total, never below its own when all are non-negative |
| Ecology.RegionalPenalty | WorldSimulation.py:105-108 | above 50 regional pollution: happiness -5 floored at 0, forest -10 floored at 0, rebellion risk +0.05, nothing else; at or below 50: no change |
| Ecology.Penalised | WorldSimulation.py:102-108 | after the loop has seen i countries, those are penalised by their own regional pollution and the rest are untouched; soundness is kept |
| Ecology.PenalisedStep | WorldSimulation.py:102-108 | penalties leave every pollution unchanged, so each country's regional value is the one computed from the states before the loop, and one more step penalises one more country |
| Ecology.PenalisedKeeps | WorldSimulation.py:105-108 | the penalty keeps pollution, population and the rebellion flag, and never raises happiness |
| Ecology.HealthAfter | WorldSimulation.py:111 | health stays within 0..100, never rises for non-negative pollution, and is unchanged while global pollution is below 5 |
| Ecology.FloodTargets | WorldSimulation.py:146 | the flood strikes min(2, n) countries, and two distinct ones when there are two |
| Ecology.FloodTargetsMost | WorldSimulation.py:146 | the first target has the largest regional pollution and is the first such; the second has the largest among the others and is the first such, as a stable descending sort gives |
| Ecology.DiseaseStrikesMost | WorldSimulation.py:131-137 | without alarm level 1 or a coin below 0.1 nothing changes; otherwise only the first country with the largest regional pollution suffers `Disease`; nobody gains happiness or population |
| Ecology.QuakeStrikesTarget | WorldSimulation.py:138-144 | without alarm level 2 or a coin below 0.05 nothing changes; otherwise only the drawn target suffers `Earthquake`; nobody gains |
| Ecology.FloodStrikesTargets | WorldSimulation.py:145-152 | without alarm level 3 or a coin below 0.02 nothing changes; otherwise only flood targets change, each by `Flood`; nobody gains |
| Ecology.FloodedAt | WorldSimulation.py:147-152 | the loop over the (distinct) targets floods each of them once and leaves every other country as it was |
| Ecology.Disasters | WorldSimulation.py:128-154 | the three phases in order keep the number of countries and every state sound |
| Ecology.DisastersNoGain | WorldSimulation.py:128-154 | the disasters never raise a country's happiness or population, and change nothing when no phase fires |
| Events.EventPollution | WorldSimulation.py:179-204 | every event adds 2 or 3 to a country's pollution and to its regional entry |
| Events.Sickened | WorldSimulation.py:176-180 | a pandemic adds 2 to pollution, and never raises happiness, production or population; no other field changes |
| Events.MeteorStruck | WorldSimulation.py:184-189 | a meteor installs the battered stock, adds 3 to pollution, never raises happiness or technology; no other field changes |
| Events.Crashed | WorldSimulation.py:194-196 | a crash keeps 70% of the money, truncated, adds 3 to pollution and never raises happiness; no other field changes |
| Events.BlackedOut | WorldSimulation.py:201-203 | a blackout adds 2 to pollution and never raises technology or production; no other field changes |
| Events.BatteredAt | WorldSimulation.py:185-186 | after the loop has seen i resources in key order, each of them lost its drawn amount, floored at 0, and the rest are untouched |
| Events.Struck | WorldSimulation.py:174-204 | one event on one country: pollution rises by the event's amount; happiness, production, population, technology and every resource never rise; money changes only in a crash (to 70%, truncated) and resources only in a meteor (each by its drawn loss, floored at 0) |
| Events.StrikeAll | WorldSimulation.py:176-204 | an event's loop over the countries strikes each country by `Struck` with its own draws |
| Events.StruckFirst | WorldSimulation.py:176-204 | after the loop has seen i countries, those are struck and the rest are untouched |
| Events.StruckFirstStep | WorldSimulation.py:176-204 | the loop starts from the states, ends at `StrikeAll`, and each step strikes one more country |
| Events.Stricken | WorldSimulation.py:174-204 | the drawn events applied in the order pandemic, meteor, crash, blackout keep every state sound |
| Events.DrawnPollution | WorldSimulation.py:174-204 | the pollution the first k events add lies within 0..3k |
| Events.StrickenEffect | WorldSimulation.py:174-204 | after the drawn events every country's pollution rose by exactly the drawn events' amounts, and its happiness, population and production never rose |
| Economy.TaxIncome | WorldSimulation.py:428-431 | tax income is never negative for a non-negative population |
| Economy.LeftTaxesAtLeastRight | WorldSimulation.py:428-431 | a left government (10%) raises at least as much tax as a right one (5%, +10% above 70 infrastructure) from the same country |
| Economy.TaxHappinessLoss | WorldSimulation.py:433-435 | taxes cost a right government 2 happiness and a left one 5, plus 3 when global pollution is above 50 |
| Economy.Taxed | WorldSimulation.py:426-441 | only money and happiness change: money rises by exactly the tax income, happiness falls by the loss, floored at 0 |
| Economy.Needs | WorldSimulation.py:389-394 | the needs dictionary has every resource, each the resource's target (30, 20, 20, 50) minus the stock |
| Economy.WantedIsFirstLargest | WorldSimulation.py:395 | the wanted resource has the largest need, and every resource before it in key order has a strictly smaller need |
| Economy.TradePollution | WorldSimulation.py:416-417 | a trade adds between 1 and 6 pollution (forest 1, gas 2, oil 4, coal 6) |
| Economy.PlanTrade | WorldSimulation.py:385-424 | something happens exactly when the partner is another country, health is at least 30, the wanted resource is short, the partner holds at least 10 of it and can pay 1000 per unit of the amount; a rejection means the coin exceeded the chance; a deal moves the wanted resource, in the smaller of the drawn quantity and the partner's stock, and at least 5 |
| Economy.Bought | WorldSimulation.py:412-417 | the buyer gains the amount of the resource, pays 1000 per unit, and gains the resource's trade pollution; nothing else changes |
| Economy.Sold | WorldSimulation.py:413-415 | the seller loses the amount of the resource and receives 1000 per unit; nothing else changes |
| Economy.BuyerSide | WorldSimulation.py:407-422 | the buyer's side of any course of the trade keeps the buyer sound |
| Economy.SellerSide | WorldSimulation.py:407-422 | the seller's side of any course of the trade keeps the seller sound |
| Economy.TradeRegionalFrame | WorldSimulation.py:418-419 | only the buyer's regional entry changes, and only by the trade pollution of a deal |
| Economy.TradeConserves | WorldSimulation.py:412-415 | whatever the course of the trade, every resource and the money summed over buyer and seller are conserved |
| Economy.DealMovesOnlyTheResource | WorldSimulation.py:412-415 | a deal changes only the traded resource on each side, by the amount, and moves 1000 per unit from buyer to seller |
| Economy.NoDealNoExchange | WorldSimulation.py:396-411 | without a deal neither side's resources nor money change |
| Economy.Joined | WorldSimulation.py:351-353 | joining sets the agreement flag, cuts pollution by 10 floored at 0 and changes only the flag, pollution and money |
| Economy.Refused | WorldSimulation.py:365-369 | refusing adds 5 to pollution and 0.02 to rebellion risk, takes 2 happiness floored at 0, and changes nothing else |
| Economy.Averaged | WorldSimulation.py:360 | `(a + b) // 2` lies between the two ideologies and is that ideology when they agree |
| Economy.Met | WorldSimulation.py:358-361 | meeting a signatory lowers the tension toward it by 5 (clamped) and sets the aligned ideology; nothing else changes; soundness is kept |
| Economy.AgreementHealth | WorldSimulation.py:355 | joining never lowers a valid health and keeps it within 0..100; refusing leaves it unchanged |
| Economy.AgreementRegional | WorldSimulation.py:366-367 | the answer keeps the regional dictionary's keys |
| Economy.AlignmentFrame | WorldSimulation.py:356-361 | the alignment loop changes only tension scores and ideologies |
| Economy.AlignmentKeeps | WorldSimulation.py:356-361 | every country other than the joiner that the loop has not reached, or that has not signed, is unchanged |
| Economy.AlignmentSound | WorldSimulation.py:356-361 | the alignment loop keeps every country sound |
| Economy.AnsweredSound | WorldSimulation.py:350-371 | joining or refusing keeps every country sound and never touches the rebellion flags |
| Economy.AlignmentStaysInRange | WorldSimulation.py:360-361 | ideologies that start within a range stay within it through the alignment loop |
| Economy.AgreementReward | WorldSimulation.py:373-378 | after a refusal with unchanged health the reward is the happiness change minus 0.5 (pollution +5 over 10) minus 0.2 (rebellion risk +0.02 times 10) |
| Economy.InvestmentAmount | WorldSimulation.py:451 | the investment, `int(money * 0.05)`, lies within 0..money |
| Economy.SmallInvestmentUnreachable | WorldSimulation.py:445-454 | once money passes the 10 000 000 guard the amount is at least 5000, so the second guard never fires |
| Economy.Efficiency | WorldSimulation.py:462-468 | efficiency lies within 0.4..1.2; with health >= 30 it is 1.2 above 70 happiness and 1.0 within 30..70; with health below 30 and middling happiness it is 0.5 |
| Economy.ProductionGain | WorldSimulation.py:471 | an economy investment adds 10 (right) or 12 (left) production per unit of efficiency |
| Economy.MoneyRate | WorldSimulation.py:473 | an economy investment raises money by 7% (right) or 5% (left) per unit of efficiency |
| Economy.EconomyBoost | WorldSimulation.py:470-487 | production strictly rises (for positive efficiency), pollution rises by the government's amount, no resource falls, a right government's happiness is kept, and only production, pollution, money, resources and happiness change |
| Economy.EnvironmentBoost | WorldSimulation.py:488-500 | pollution falls by the government's cut, floored at 0; happiness never falls; forest grows by `int(5 * efficiency)`; only pollution, happiness, money and resources change |
| Economy.InfrastructureGain | WorldSimulation.py:502 | infrastructure rises by 25 (right) or 15 (left) per unit of efficiency |
| Economy.RiskRelief | WorldSimulation.py:503 | rebellion risk falls by 0.03 (right) or 0.02 (left) per unit of efficiency |
| Economy.InfrastructureBoost | WorldSimulation.py:501-507 | infrastructure and happiness never fall, rebellion risk never rises, and nothing else changes |
| Economy.Invested | WorldSimulation.py:455-507 | the chosen area's accumulator grows by exactly the amount invested; an infrastructure investment costs exactly that amount; soundness is kept |
| Economy.Paid | WorldSimulation.py:460-461 | the money paid goes into the area's accumulator (their sum is conserved) and never exceeds the money held |
| Economy.HealthAfterInvestment | WorldSimulation.py:494 | only an environment investment changes health, and it never lowers a valid health nor passes 100 |
| Economy.GlobalAfterInvestment | WorldSimulation.py:495 | only an environment investment changes global pollution, and never raises it nor takes it below 0 |
| Economy.InvestmentPollutionTracked | WorldSimulation.py:475-493 | the country's pollution and its regional entry move together: by the same amount outside the environment area, and both cut by the same amount, floored at 0, in it |
| Economy.EnvironmentScenario | WorldSimulation.py:463-491 | at happiness 80 and health 80 an environment investment cuts pollution by 12 (right) or 14.4 (left) |
| Economy.InvestmentReward | WorldSimulation.py:509-514 | when the country's happiness, money, pollution and rebellion risk are unchanged the reward is half the health change |
| Warfare.EffectiveTension | WorldSimulation.py:226-228 | the war check reads the tension toward the other (50 when unset) plus 5 while global pollution exceeds 50 |
| Warfare.RowCandidatesExactly | WorldSimulation.py:224-230 | the inner loop collects exactly the pairs (i, j) with j already scanned, j different from i and effective tension above 70 |
| Warfare.CandidatesExactly | WorldSimulation.py:222-230 | the double loop collects exactly the ordered pairs of distinct countries whose effective tension is above 70 |
| Warfare.CombatScore | WorldSimulation.py:249-250 | an attack or defence score is never negative |
| Warfare.Battle | WorldSimulation.py:251-257 | equal scores are a stalemate, otherwise the higher score wins (the defender's coefficient is 0.20, the attacker's 0.15), each as an if-and-only-if |
| Warfare.Spoils | WorldSimulation.py:260 | the loss of a resource, `int(stock * 0.3)`, lies within 0..stock |
| Warfare.Triumph | WorldSimulation.py:262-272 | the winner takes the new stock, loses at most its population, gains 5 happiness capped at 100, 12 pollution and 0.05 rebellion risk; nothing else changes |
| Warfare.Defeat | WorldSimulation.py:259-273 | the loser takes the new stock, loses at most its population, loses 10 happiness floored at 0, gains 12 pollution and 0.05 rebellion risk; nothing else changes |
| Warfare.PlunderedAt | WorldSimulation.py:259-261 | after the loop has seen i resources in key order, each of them lost its spoils and the rest are untouched |
| Warfare.EnrichedAt | WorldSimulation.py:259-262 | after the loop has seen i resources in key order, the winner gained each one's spoils and the rest are untouched |
| Warfare.Victor | WorldSimulation.py:257-272 | the winner's state after the war is sound |
| Warfare.Vanquished | WorldSimulation.py:257-273 | the loser's state after the war is sound |
| Warfare.VictorShape | WorldSimulation.py:259-272 | the winner gains every resource's spoils from the loser, loses at most its population, gains 5 happiness capped at 100, and changes only resources, population, happiness, pollution and rebellion risk |
| Warfare.VanquishedShape | WorldSimulation.py:259-273 | the loser loses each resource's spoils, loses at most its population, loses 10 happiness floored at 0, and changes only those five fields |
| Warfare.SpoilsConserved | WorldSimulation.py:259-262 | every resource summed over winner and loser is conserved by the war |
| Warfare.WarReward | WorldSimulation.py:284-294 | with nothing changed the reward is +10 for a win and -10 for a loss; with only happiness changed it is that change plus the bonus or penalty |
| Warfare.Settled | WorldSimulation.py:278-282 | the tension updates after a war keep a country sound |
| Warfare.SettledShape | WorldSimulation.py:278-282 | only tension scores change: toward the enemy the score rises by the war's amount (clamped), and with peace it then falls by 20, floored at 0 |
| Warfare.PeaceCools | WorldSimulation.py:278-282 | with peace the winner's tension toward the loser ends no higher than before; without peace the loser's tension toward the winner is at least 30 |
| Warfare.AfterWar | WorldSimulation.py:257-282 | a decisive war leaves the winner as the settled `Victor` and the loser as the settled `Vanquished`, whichever side won, both sound |
| Warfare.WarHealth | WorldSimulation.py:277 | health falls by 15, floored at 0, and never rises |
| Warfare.WarRegional | WorldSimulation.py:275-276 | the war keeps the regional dictionary's keys |
| Warfare.WarRegionalAt | WorldSimulation.py:275-276 | winner's and loser's regional entries each rise by 12, the result does not depend on who won, and every other entry is kept |
| Turn.Grown | WorldSimulation.py:521-524 | the year advances by one, population never falls, production rises by at least 0.1 and money by at least 100; nothing else changes |
| Turn.Burn | WorldSimulation.py:527-529 | the fuel burnt lies within 0..stock, and nothing burns at production 100 or less, nor forest ever |
| Turn.FuelPollution | WorldSimulation.py:533 | burning adds 0..14.5 pollution, and none at production 100 or less |
| Turn.Burned | WorldSimulation.py:526-533 | each resource falls by what is burnt, pollution rises by the fuel pollution, nothing else changes |
| Turn.NoOil | WorldSimulation.py:537-540 | running out of oil never raises production or happiness, and changes only production, happiness and rebellion risk |
| Turn.NoCoal | WorldSimulation.py:542-544 | running out of coal never raises production or happiness, and changes only those two |
| Turn.NoGas | WorldSimulation.py:546-548 | running out of gas costs 5000 money, never raises production, and changes only those two |
| Turn.Shortages | WorldSimulation.py:537-548 | the shortage checks never raise production or happiness, cost 5000 exactly when gas is out, and change nothing when oil, coal and gas are all in stock |
| Turn.ForestMood | WorldSimulation.py:550-557 | above 70 forest happiness rises by 3 capped at 100; below 30 it falls by 3 floored at 0 and rebellion risk rises by 0.05; otherwise nothing changes |
| Turn.ForestHealth | WorldSimulation.py:553 | above 70 forest the ecosystem's health rises by 1 capped at 100, otherwise it is unchanged |
| Turn.GrownEachAt | WorldSimulation.py:561-562 | after the loop has seen i resources in key order each of them grew by 3 and the rest are untouched |
| Turn.Regenerated | WorldSimulation.py:559-567 | forest grows by 5 under a left government and 2 under a right one; oil and coal by 3 or 2; gas by 3 or 0; nothing else changes |
| Turn.HealthyCheer | WorldSimulation.py:578 | a healthy ecosystem cheers a right government by 5 and a left one by 7 |
| Turn.EcoFeedback | WorldSimulation.py:572-580 | below 30 health happiness never rises and rebellion risk rises by 0.05; above 70 happiness never falls and risk is kept; otherwise nothing changes |
| Turn.SportsYear | WorldSimulation.py:582-585 | in a fourth year with a coin below 0.3: happiness +5 capped, rebellion risk -2 floored at 0, production times 1.1; otherwise nothing changes |
| Turn.EducationMigration | WorldSimulation.py:587-590 | only with education below 4 and a coin below 0.2 does anything change, and then only population (never up) and happiness |
| Turn.TechMigration | WorldSimulation.py:592-595 | only with technology below 5 and a coin below 0.15 does anything change, and then only population (never up) and happiness |
| Turn.Worked | WorldSimulation.py:521-571 | growth, fuel, shortages, forests and regeneration keep the country sound and advance the year by one |
| Turn.Lived | WorldSimulation.py:572-596 | the ecosystem's feedback, the sports year and the migrations keep the country sound and touch neither the year nor pollution |
| Turn.Upkeep | WorldSimulation.py:521-596 | the whole upkeep before taxes keeps the country sound and advances the year by one |
| Turn.UpkeepPollution | WorldSimulation.py:533-571 | the upkeep adds 0..17.5 pollution (fuel, then 3 for industry above 100 production) |
| Turn.UpkeepHealth | WorldSimulation.py:550-553 | the upkeep never lowers a valid health nor takes it above 100 |
| Turn.UpkeepPollutionTracked | WorldSimulation.py:533-571 | the country's pollution rises by exactly the amount added to its regional entry |
| Turn.Overthrown | WorldSimulation.py:606-608 | a change of government flips it, negates the ideology, sets happiness to 70 and changes nothing else |
| Turn.PoliticalCheck | WorldSimulation.py:602-609 | in a fourth year with happiness at most 50 the government is overthrown; otherwise nothing changes |
| Turn.PoliticalCheckSettles | WorldSimulation.py:602-609 | a second check right after the first changes nothing |
| Turn.Uprising | WorldSimulation.py:623-625 | a rebellion changes only population, military power and money, never raising the first two |
| Turn.Rebellion | WorldSimulation.py:620-635 | after a rebellion happiness is at least 30; population and military never rise; below 0.25 the government flips and the ideology is negated, otherwise both are kept; resources, tensions and the year are kept |
| Turn.YearEnd | WorldSimulation.py:610-614 | the rebellion flag is cleared; a country that had not rebelled ends with happiness at least 20; a country at 20 or more is unchanged apart from the flag |
| Rounds.NoneDone | WorldSimulation.py:160 | the record of global events holds exactly the years 1..20, none of them done |
| Rounds.WarChoice | WorldSimulation.py:234-236 | the attacker's agent, observing the tension toward the defender, chooses attack or peace |
| Rounds.WarTable | WorldSimulation.py:241-295 | the war table stays well formed after it learns from a war |
| Rounds.Prepared | WorldSimulation.py:521-597 | the upkeep and taxes of one country keep every bound of the world, and change no name, table or yearly record |
| Rounds.Traded | WorldSimulation.py:598-599 | the trade with the drawn partner keeps every bound of the world, and changes no name, table or record |
| Rounds.Pledged | WorldSimulation.py:600 | the agreement decision keeps every bound of the world, and changes no name or record |
| Rounds.Financed | WorldSimulation.py:601 | the investment decision keeps every bound of the world, and changes no name or record |
| Rounds.Concluded | WorldSimulation.py:602-614 | the political check and the end of the year keep every bound of the world and change no name, table or record |
| Rounds.Turned | WorldSimulation.py:519-618 | a turn (upkeep and taxes, then, when there is another country, trade, agreement, investment and the end of the year) keeps every bound of the world and changes no name or record |
| Rounds.Dealt | WorldSimulation.py:598-614 | the turn after the taxes keeps every bound of the world and changes no name or record |
| Rounds.TurnTaken | WorldSimulation.py:679-684 | the world after i + 1 turns is the i-th country's turn taken on the world after i turns |
| Rounds.TurnsTaken | WorldSimulation.py:678-684 | all countries' turns, in list order, keep every bound of the world and change no name or record |
| Rounds.EventsPassed | WorldSimulation.py:163-209 | the global events of a year keep every bound of the world and change no name or table |
| Rounds.Befallen | WorldSimulation.py:169-207 | the drawn events, the pollution update, the alarm and the disasters keep every bound of the world and change no name, table or record |
| Rounds.EventsMark | WorldSimulation.py:166-168 | the global events mark their year done when it is in the record and touch no other year |
| Rounds.Fought | WorldSimulation.py:233-295 | one war keeps every bound of the world and changes no name or record |
| Rounds.Chose | WorldSimulation.py:234-236 | the attacker's choice changes only the attacker's tables (the row read is inserted) |
| Rounds.Clashing | WorldSimulation.py:237-294 | the clash changes only the attacker's and the defender's states and the ecosystem, never a table, record or the alarm |
| Rounds.Learned | WorldSimulation.py:241-295 | learning from a war changes only the attacker's tables |
| Rounds.ClashedKeeps | WorldSimulation.py:237-294 | after a clash both sides are sound, health stays within 0..100, global pollution never falls and the regional keys are kept |
| Rounds.ClashConserves | WorldSimulation.py:237-294 | each resource summed over attacker and defender is conserved; peace or equal scores leave both sides unchanged |
| Rounds.FoughtConserves | WorldSimulation.py:233-295 | one war conserves the world's total of each resource and leaves every third country unchanged |
| Rounds.FoughtFirst | WorldSimulation.py:233-295 | the first k wars of the shuffled candidates, fought in order, keep every bound of the world and the world's total of each resource |
| Rounds.FirstTwoFit | WorldSimulation.py:231-233 | the first min(2, m) entries of a shuffle of m candidates are candidate indexes with a draw each |
| Rounds.Warred | WorldSimulation.py:222-295 | collecting, shuffling and fighting the first two wars keeps every bound of the world and changes no name or record |
| Rounds.WarsPassed | WorldSimulation.py:217-297 | the war phase as written keeps every bound of the world and changes no name or record |
| Rounds.WarsKeyed | WorldSimulation.py:217-297 | the war phase keyed on a flag of its own keeps every bound of the world and changes no name or record |
| Rounds.YearPassed | WorldSimulation.py:674-684 | a year (global events, wars, turns) keeps every bound of the world and changes no name; it marks its own year done when the record holds it and leaves the record alone otherwise |
| Rounds.Simulated | WorldSimulation.py:672-689 | the first n years, run as the error handlers mean them to run (log and go on), keep every bound of the world and change no name |
| Rounds.SimulatedPassesLast | WorldSimulation.py:163-168 | a run that logs its errors and goes on marks its last year (1..20) done, whatever the number of countries |
| Rounds.YearsRun | WorldSimulation.py:672-689 | the years the run as written passes: never more than asked or than 20, at most one in a world of one country, and fewer than asked only by stopping at year 20 or, with one country, after year 1 |
| Rounds.Run | WorldSimulation.py:672-689 | the run as written keeps every bound of the world and changes no name |
| Rounds.RunStopsEarly | WorldSimulation.py:47-53 | in a fresh world of one country, the run as written never marks year 2 done, while the run that logs its errors does |
| Rounds.RunAgrees | WorldSimulation.py:672-689 | with at least two countries and at most 20 years, the run as written and the run that logs its errors are the same |
| Rounds.WarsNeverFought | WorldSimulation.py:219-221 | as written the war phase that follows a year's global events changes nothing, so a year is its global events and then the turns |
| Rounds.KeyedWarsFought | WorldSimulation.py:219-295 | keyed on its own flag, the war phase of a year in the record fights the shuffled candidates' first two wars and conserves the world's total of each resource |
| Simulation.MindOf | WorldSimulation.py:60-62 | an agent's three tables as a value; the agent's invariant holds exactly when every row of each table has its table's actions |
| Simulation.Country.constructor | WorldSimulation.py:300-322 | a new country has the drawn population, government, ideology, money, military power, technology, education and pollution, happiness 70, production 100, infrastructure 50, no rebellion risk, 100 of every resource, nothing invested, no tension scores, year 0 and no agreement |
| Simulation.Country.UpdateTension | WorldSimulation.py:332-337 | the country's state becomes `WithTension` of the old state toward the partner |
| Simulation.Country.Reconcile | WorldSimulation.py:278-282 | the country's state becomes `Settled` after the war's tension rise and the possible peace |
| Simulation.Country.CollectTaxes | WorldSimulation.py:426-441 | the country's state becomes `Taxed` of the old state at the ecosystem's global pollution |
| Simulation.Country.TradeResources | WorldSimulation.py:385-424 | the course taken is `PlanTrade` on the states before the call; buyer and seller become their sides of it, the buyer's regional entry is `TradeRegional`, and the rest of the ecosystem is unchanged |
| Simulation.Country.Reject | WorldSimulation.py:407-411 | a rejection raises both sides' tension toward each other by 5 and changes nothing else |
| Simulation.Country.Exchange | WorldSimulation.py:412-422 | a deal: both sides become their sides of `Deal`, and the buyer's regional entry gains the trade pollution |
| Simulation.Country.PlanOffer | WorldSimulation.py:387-407 | the course of the trade computed by the guards, changing nothing, is `PlanTrade` |
| Simulation.Country.JoinEnvironmentAgreement | WorldSimulation.py:339-383 | a signed country returns true and changes nothing; otherwise it returns whether its agent chose to join, every country becomes `Answered`, health and the regional entry follow the answer, the agreement table is `Updated` with `AgreementReward`, and no other agent or table changes |
| Simulation.Country.Deliberate | WorldSimulation.py:343-380 | an unsigned country's choice, answer and learning, with the same effects as above |
| Simulation.Country.Sign | WorldSimulation.py:350-379 | the answer to a chosen action: success exactly on join, every country `Answered`, the ecosystem and the agreement table updated as above |
| Simulation.Country.Decide | WorldSimulation.py:343-344 | the agent's choice is `Choose` on the row read through the default, and the read inserts that row |
| Simulation.Country.Learn | WorldSimulation.py:379 | the agreement table becomes `Updated`, the other tables are unchanged |
| Simulation.Country.Reply | WorldSimulation.py:350-371 | the answer reaches every country as `Answered` and the ecosystem's health and regional entry as the answer says |
| Simulation.Country.Answer | WorldSimulation.py:350-371 | every country's state becomes its `Answered` state |
| Simulation.Country.MeetSignatories | WorldSimulation.py:356-361 | the loop over the other countries leaves every country in its `Alignment` state |
| Simulation.Country.MeetAt | WorldSimulation.py:357-361 | one step of that loop moves from the alignment after i countries to the alignment after i + 1 |
| Simulation.Country.MakeInvestmentDecision | WorldSimulation.py:443-517 | below 10 million in money nothing changes; otherwise the area is `Choose` on the row read, the country becomes `Invested`, the regional entry, health and global pollution follow the area, and the investment table is `Updated` with `InvestmentReward`; other tables and the alarm are unchanged |
| Simulation.Country.InvestAndLearn | WorldSimulation.py:455-515 | the investment in the chosen area and the learning from it, with the effects above |
| Simulation.Country.Fund | WorldSimulation.py:455-507 | the investment in the chosen area: the country becomes `Invested`, the ecosystem follows the area |
| Simulation.Country.BoostEconomy | WorldSimulation.py:470-487 | an economy investment makes the country `Invested` in the economy and adds its pollution to the regional entry, leaving health and global pollution |
| Simulation.Country.RestoreEnvironment | WorldSimulation.py:488-500 | an environment investment makes the country `Invested` in the environment and cuts the regional entry, global pollution and raises health as the area says |
| Simulation.Country.BuildInfrastructure | WorldSimulation.py:501-507 | an infrastructure investment makes the country `Invested` in infrastructure |
| Simulation.Country.Grow | WorldSimulation.py:521-524 | the state becomes `Grown` |
| Simulation.Country.ConsumeFuel | WorldSimulation.py:526-536 | the state becomes `Burned` and the regional entry gains the fuel pollution; the rest of the ecosystem is unchanged |
| Simulation.Country.SufferShortages | WorldSimulation.py:537-549 | the state becomes `Shortages` |
| Simulation.Country.TendForests | WorldSimulation.py:550-558 | the state becomes `ForestMood` and health `ForestHealth` |
| Simulation.Country.Regenerate | WorldSimulation.py:559-567 | the state becomes `Regenerated` |
| Simulation.Country.AddIndustryPollution | WorldSimulation.py:568-571 | pollution and the regional entry gain 3 exactly above 100 production |
| Simulation.Country.FeelEcosystem | WorldSimulation.py:572-581 | the state becomes `EcoFeedback` at the ecosystem's health |
| Simulation.Country.HoldSportsYear | WorldSimulation.py:582-586 | the state becomes `SportsYear` |
| Simulation.Country.LoseStudents | WorldSimulation.py:587-591 | the state becomes `EducationMigration` |
| Simulation.Country.LoseTechWorkers | WorldSimulation.py:592-596 | the state becomes `TechMigration` |
| Simulation.Country.Upkeep | WorldSimulation.py:521-596 | the state becomes `Upkeep`, health `UpkeepHealth`, and the regional entry gains exactly `UpkeepPollution` |
| Simulation.Country.Work | WorldSimulation.py:521-571 | the state becomes `Worked`, with the same effects on the ecosystem |
| Simulation.Country.Produce | WorldSimulation.py:521-558 | growth, fuel, shortages and forests in order, with the fuel pollution on the regional entry |
| Simulation.Country.Live | WorldSimulation.py:572-596 | the state becomes `Lived` |
| Simulation.Country.CheckGovernment | WorldSimulation.py:602-609 | the state becomes `PoliticalCheck` |
| Simulation.Country.Rebellion | WorldSimulation.py:620-635 | the state becomes `Turn.Rebellion` on the drawn coin and happiness |
| Simulation.Country.CloseYear | WorldSimulation.py:610-614 | the state becomes `YearEnd`, with happiness at least 20 |
| Simulation.Country.SimulateTurn | WorldSimulation.py:519-618 | the world after the turn is `Turned`: upkeep and taxes, and, with another country, the trade, the agreement, the investment and the end of the year, each phase on the world the previous one left; with two or more countries the country ends with happiness at least 20 |
| Simulation.Country.DealIn | WorldSimulation.py:598-614 | the world after the phases that follow the taxes is `Dealt`, and the country ends with happiness at least 20 |
| Simulation.Country.PrepareIn | WorldSimulation.py:521-597 | the world after upkeep and taxes is `Prepared` |
| Simulation.Country.PrepareKept | WorldSimulation.py:521-597 | upkeep and taxes change only this country (to `Taxed` of its `Upkeep`) and the ecosystem's health and regional entry |
| Simulation.Country.TradeIn | WorldSimulation.py:598-599 | the world after the trade is `Traded` |
| Simulation.Country.TradeKept | WorldSimulation.py:598-599 | the trade changes only the two parties and the buyer's regional entry, as `PlanTrade` says |
| Simulation.Country.AgreeIn | WorldSimulation.py:600 | the world after the agreement decision is `Pledged` |
| Simulation.Country.AgreeKept | WorldSimulation.py:600 | the agreement decision changes the countries as `Answered`, the ecosystem as the answer says, and only this agent's agreement table |
| Simulation.Country.InvestIn | WorldSimulation.py:601 | the world after the investment decision is `Financed` |
| Simulation.Country.InvestKept | WorldSimulation.py:601 | the investment decision changes only this country, its investment table and the ecosystem, as `MakeInvestmentDecision` says |
| Simulation.Country.ConcludeIn | WorldSimulation.py:602-614 | the world after the political check and the end of the year is `Concluded`, and the country ends with happiness at least 20 |
| Simulation.Country.ConcludeKept | WorldSimulation.py:602-614 | only this country changes, to `YearEnd` of its `PoliticalCheck` |
| Simulation.Country.SufferRegionalPollution | WorldSimulation.py:105-108 | the state becomes `RegionalPenalty` at its regional pollution |
| Simulation.Country.SufferDisease | WorldSimulation.py:133-136 | the state becomes `Disease` |
| Simulation.Country.SufferEarthquake | WorldSimulation.py:140-143 | the state becomes `Earthquake` |
| Simulation.Country.SufferFlood | WorldSimulation.py:148-151 | the state becomes `Flood` |
| Simulation.Country.SufferEvent | WorldSimulation.py:176-203 | the state becomes `Struck` by the event with the drawn losses |
| Simulation.Country.Conquer | WorldSimulation.py:259-273 | winner and loser become `Victor` and `Vanquished` |
| Simulation.Country.Prevail | WorldSimulation.py:259-282 | winner and loser become their settled `Victor` and `Vanquished`; global pollution +2, both regional entries +12, health -15 floored at 0 |
| Simulation.Country.Endure | WorldSimulation.py:176-204 | one step of an event's loop strikes one more country |
| Simulation.Ecosystem.constructor | WorldSimulation.py:88-93 | global pollution is the mean of the countries' pollution, every country's regional entry is its own pollution, health is 60 and the alarm 0 |
| Simulation.Ecosystem.UpdatePollution | WorldSimulation.py:96-114 | global pollution becomes the mean of the pollutions, the regional dictionary is rebuilt from them, health decays by `HealthAfter`, every country is `Penalised`, and the alarm is unchanged |
| Simulation.Ecosystem.Record | WorldSimulation.py:101-111 | global pollution and the regional dictionary take the computed values and health decays |
| Simulation.Ecosystem.Regionalise | WorldSimulation.py:102-110 | the loop builds the regional dictionary from the pollutions before it and penalises every country |
| Simulation.Ecosystem.Scar | WorldSimulation.py:274-277 | a war adds 2 to global pollution, 12 to both regional entries and costs 15 health floored at 0 |
| Simulation.Ecosystem.Raise | WorldSimulation.py:181 | one regional entry rises by the amount, nothing else changes |
| Simulation.Ecosystem.Respond | WorldSimulation.py:205-207 | pollution update, alarm and disasters in order, on the states the events left |
| Simulation.Ecosystem.PolluteAt | WorldSimulation.py:103-108 | one step of the loop adds a country's regional entry and penalises it |
| Simulation.Ecosystem.MeanPollution | WorldSimulation.py:98 | the sum of pollutions over the count is `Mean` of the pollutions |
| Simulation.Ecosystem.RegionalPollution | WorldSimulation.py:103-104 | the loop over the neighbours computes `Regional` of the pollutions |
| Simulation.Ecosystem.Penalise | WorldSimulation.py:105-108 | one country becomes its `RegionalPenalty` |
| Simulation.Ecosystem.SoundAlarm | WorldSimulation.py:116-126 | the alarm becomes `RaisedAlarm` (so `AlarmRatchet` holds of it) and nothing else changes |
| Simulation.Ecosystem.Answered | WorldSimulation.py:354-367 | health and the regional entry follow the agreement answer; nothing else changes |
| Simulation.Ecosystem.TriggerDisasters | WorldSimulation.py:128-154 | every country ends in its `Disasters` state on the regional pollution and the alarm |
| Simulation.Ecosystem.Plague | WorldSimulation.py:131-137 | the countries end in their `DiseaseStep` states and the ecosystem is unchanged |
| Simulation.Ecosystem.Quake | WorldSimulation.py:138-144 | the countries end in their `QuakeStep` states and the ecosystem is unchanged |
| Simulation.Ecosystem.Deluge | WorldSimulation.py:145-152 | the countries end in their `FloodStep` states and the ecosystem is unchanged |
| Simulation.Ecosystem.Sicken | WorldSimulation.py:133-136 | one country suffers `Disease` |
| Simulation.Ecosystem.Shake | WorldSimulation.py:140-143 | one country suffers `Earthquake` |
| Simulation.Ecosystem.Drown | WorldSimulation.py:148-151 | one country suffers `Flood` |
| Simulation.World.constructor | WorldSimulation.py:157-161 | a world of the given countries has a new ecosystem over them and no year's global events done |
| Simulation.World.Strike | WorldSimulation.py:176-204 | one event strikes every country (`StrikeAll`) and raises every regional entry by its amount |
| Simulation.World.StrikeEach | WorldSimulation.py:176-204 | the loop of one event over the countries, with the same effects |
| Simulation.World.StrikeAt | WorldSimulation.py:176-204 | one step of that loop strikes one more country and raises its regional entry |
| Simulation.World.Unleash | WorldSimulation.py:174-204 | the drawn events strike in order, leaving the countries `Stricken` |
| Simulation.World.SimulateGlobalEvents | WorldSimulation.py:163-209 | the world after the call is `EventsPassed`: a year outside 1..20 or already done changes nothing; otherwise the year is marked done and the events, pollution update, alarm and disasters follow |
| Simulation.World.Mark | WorldSimulation.py:168 | the year is marked done and nothing else changes |
| Simulation.World.Unfold | WorldSimulation.py:169-207 | the world after the year's events is `Befallen` |
| Simulation.World.UnfoldKept | WorldSimulation.py:169-207 | the events change the countries and the ecosystem as `Befallen` says and no agent |
| Simulation.World.UnleashKept | WorldSimulation.py:174-204 | the drawn events leave the countries `Stricken` and touch no agent, health or alarm |
| Simulation.World.AftermathKept | WorldSimulation.py:205-207 | pollution update, alarm and disasters change no agent |
| Simulation.World.Aftermath | WorldSimulation.py:205-207 | pollution update, alarm and disasters, on the struck states |
| Simulation.World.PotentialWars | WorldSimulation.py:222-230 | the candidates collected are exactly the pairs of distinct countries whose effective tension is above 70, in scan order |
| Simulation.World.ScanRow | WorldSimulation.py:224-230 | one row of the scan appends that row's candidates |
| Simulation.World.Tense | WorldSimulation.py:225-229 | a pair is a candidate exactly when the countries differ and the effective tension is above 70 |
| Simulation.World.Fight | WorldSimulation.py:233-295 | the world after one war is `Fought`: choice, clash and learning in order |
| Simulation.World.ChooseAt | WorldSimulation.py:234-236 | the attacker's observation and `WarChoice`, with the row read inserted |
| Simulation.World.ClashAt | WorldSimulation.py:237-294 | the world after the clash is `Clashing`, and the reward and next state are the clash's |
| Simulation.World.LearnAt | WorldSimulation.py:241-295 | the world after learning is `Learned` |
| Simulation.World.Clash | WorldSimulation.py:237-294 | the attacker, the defender and the ecosystem become the `Clashed` values, every other country is unchanged |
| Simulation.World.Decide | WorldSimulation.py:234-236 | the war action is `Choose` on the row read, and the read inserts that row |
| Simulation.World.Learn | WorldSimulation.py:241-295 | the attacker's war table becomes `Updated`, the other tables are unchanged |
| Simulation.World.Wage | WorldSimulation.py:249-282 | the outcome is won exactly when the attack score is higher; both sides become `AfterWar`; global pollution +2, regional +12 each, health -15 floored at 0 |
| Simulation.World.Triumph | WorldSimulation.py:257-282 | winner and loser become their settled `Victor` and `Vanquished`, and the ecosystem is scarred |
| Simulation.World.SimulateWar | WorldSimulation.py:217-297 | the world after the call is `WarsPassed`: a year outside 1..20 or already done changes nothing; otherwise the first two shuffled candidates fight |
| Simulation.World.FightWars | WorldSimulation.py:222-295 | the world after collecting, shuffling and fighting is `Warred` |
| Simulation.World.FightFirst | WorldSimulation.py:233-295 | the world after the first n wars is `FoughtFirst` |
| Simulation.World.FightNth | WorldSimulation.py:233-295 | one more war moves the world one step along the wars' sequence |
| Simulation.World.SimulateYear | WorldSimulation.py:674-684 | the world after one year is `YearPassed`: the global events, the war phase, then every country's turn in list order |
| Simulation.World.TakeTurns | WorldSimulation.py:678-684 | the world after all turns is `TurnsTaken` |
| Simulation.World.TakeTurn | WorldSimulation.py:679-684 | one more turn moves the world one step along the turns' sequence |
| Simulation.World.SimulateWorld | WorldSimulation.py:672-689 | the world after the run is `Simulated`: year 1 to the last year in turn, each error logged and the run going on, as the handlers intend (see Findings) |

## Left out

- Simulation.World.TakeTurns: runs the year's turns one after another in list order; the thread pool of `simulate_world` (WorldSimulation.py:678-684) and the interleavings it allows under the shared `lock` and `db_lock` are not modelled, because the model is sequential.
- Locks: `lock` and `db_lock` are not modelled; each operation is atomic in the model, which is the behaviour the locks are there to give.
- Exceptions: every handler (for example WorldSimulation.py:208-209, 296-297, 617-618, 682-687) logs through `safe_print(..., exception=True)`, which hands the keyword on to `print` (WorldSimulation.py:47-49); `print` rejects it with a `TypeError`, so the first error ends the whole run instead of being logged (see Findings). The model runs the years as the handlers mean them to run, logging and going on (`Rounds.Simulated`), and states the run as written apart (`Rounds.YearsRun`, `Rounds.Run`). Errors the code does not reach by design are not modelled; the two it does reach are the next two lines.
- Simulation.World.SimulateGlobalEvents and Simulation.World.SimulateWar: a year outside 1..20 raises a `KeyError` on `global_events_done[year]` (WorldSimulation.py:166, 219) before either changes anything; the model states that such a year changes nothing in these two steps. As written, the handler then raises and the run ends there (`Rounds.YearsRun`).
- Simulation.Country.SimulateTurn: in a one-country world `random.choice` over the other countries raises (WorldSimulation.py:598), so the turn stops after upkeep and taxes; the model states exactly that branch (`Rounds.Turned`). As written, the handler then raises and the run ends after that first turn (`Rounds.RunStopsEarly`).
- Simulation.World.SimulateYear: states the year as the handlers intend it, with the turns following a year outside 1..20; as written, the `TypeError` of the events' handler ends the run before the war phase of such a year.
- Simulation.World.SimulateWorld: states the run as the handlers intend it (`Rounds.Simulated`); the run as written stops after year 20, or after year 1 in a one-country world, which `Rounds.Run` states and `Rounds.RunAgrees` shows makes no difference with two or more countries and at most 20 years.
- Floating point: Python floats are exact `real`s, so rounding (in the mean pollution, the 10% shares, the Q-learning update) is not modelled; `int()` is modelled as truncation toward zero (`Basics.Trunc`) and `//` as floor division.
- Random draws: `random.random`, `random.uniform`, `random.randint`, `random.choice` and `random.shuffle` are parameters (`TurnDraw`, `YearDraw`, `FightDraw`, `DisasterDraw`, `EventDraw`, the meteor's losses, the war order); their documented ranges are the requires `DrawInRange`, `TurnFits`, `FightsFit`, `MeteorLosses` and `IsShuffle`, so the model proves the result for every draw in range but not the distribution.
- Simulation.World.TakeTurns and Simulation.World.SimulateWorld: the partner of a turn is a draw that `TurnFits` constrains to another country only when there are at least two; a one-country world is accepted, and what its turn does is the line on Simulation.Country.SimulateTurn above.
- `natural_disaster_risk` (WorldSimulation.py:304, 574) and `diplomatic_relations` (WorldSimulation.py:320): not modelled, because nothing in the core reads them back into a decision.
- Logging through `safe_print`, `time.sleep(1)` (WorldSimulation.py:616), `save_to_database` (WorldSimulation.py:637-670), and the database setup: not modelled, because they only print, wait or persist and change no simulated state.
- The episode driver (WorldSimulation.py:691-714): it builds a world of five named countries (WorldSimulation.py:698-703), sets every tension to a draw in 40..60 (WorldSimulation.py:704-707) and runs 10 years; it is not modelled as such, because `Simulation.World.SimulateWorld` starts from any world it is given (`At(g)`), which covers that world with its drawn tensions.
- Agents across episodes: the driver keeps each country's agent from one episode to the next; the model takes the agents as part of the initial world (`Simulation.MindOf`), so one run of `Simulation.World.SimulateWorld` is one episode.
- `add_country` and `initialize_ecosystem` (WorldSimulation.py:211-215): folded into `Simulation.World.constructor`, which takes the countries and builds the ecosystem over them.
- The module-level `world` that `simulate_turn` reads (WorldSimulation.py:598) is passed explicitly to every country operation.
- Simulation.Country.constructor: takes its agent as a parameter instead of having it assigned after construction.
- Simulation.World.SimulateYear: follows the program as written, so its war phase never fights (see Findings); the war phase as intended is modelled separately.

## Findings

| source | as written | input that shows it | evidently intended | confidence | as-written member | corrected member |
|---|---|---|---|---|---|---|
| WorldSimulation.py:219 | `simulate_war` returns at once when `global_events_done[year]` is set, and `simulate_global_events` sets that same flag just before (WorldSimulation.py:166-168, 675-677), so no war is ever fought | year 1 of any fresh world with at least two countries | a war phase keyed on a flag of its own, so that the tense pairs actually fight | high (not executed) | Rounds.WarsNeverFought | Rounds.WarsKeyed, Rounds.KeyedWarsFought |
| WorldSimulation.py:47-49 | `safe_print` hands every keyword on to `print`, and every error handler passes `exception=True`, which `print` rejects with a `TypeError`; the handler itself raises, so the first error ends the run instead of being logged | a world of one country run for 2 years (its first turn finds no trade partner), or any world run for 21 years (year 21 is not in `global_events_done`) | keep the keyword for the log file only, so that an error is logged and the run goes on | high (not executed) | Rounds.Run, Rounds.RunStopsEarly | Rounds.Simulated, Rounds.SimulatedPassesLast |

`Rounds.WarsNeverFought` proves that after the year's global events the war phase as written leaves every country, agent and the ecosystem unchanged. `Rounds.WarsKeyed` keys the war phase on its own flag, and `Rounds.KeyedWarsFought` proves that it then runs the drawn wars (`Rounds.Warred`) and that they keep the world's stock of every resource, as each single war does (`Rounds.FoughtConserves`); `Simulation.World.FightWars` carries out that phase in place. The yearly round keeps the as-written phase, so that the rest of the model follows the program.

`Rounds.YearsRun` counts the years the run as written passes and `Rounds.Run` is the world it leaves; `Rounds.RunStopsEarly` exhibits the one-country case, in which year 2 is never reached, and `Rounds.RunAgrees` shows that with two or more countries and at most 20 years, as the driver runs it, nothing is lost. The rest of the model, `Simulation.World.SimulateWorld` included, runs the years as the handlers intend, and `Rounds.SimulatedPassesLast` proves that such a run reaches and marks its last year.
