// The simulation as values: the whole world between two steps as one
// record, and each phase of a turn, of a year and of a run as a function of
// it. The methods of the Simulation module are proved to carry the world's
// objects through exactly these values.

module Rounds {
  import opened Basics
  import opened Learning
  import opened Countries
  import opened Ecology
  import opened Events
  import opened Warfare
  import opened Economy
  import opened Turn

  /** What an agent reads of a country: `get_state` on its fields and the
      ecosystem's health, with the tension when one is given. */
  function Observe(s: CountryState, health: real, tension: Option<int>): State
  {
    GetState(s.happiness, s.pollution, s.infrastructure, s.production, s.government, health, tension)
  }

  /** Every state is sound and records no rebellion: what the countries'
      invariants say of the states they hold. */
  predicate ValidStates(st: seq<CountryState>)
  {
    AllSound(st) && forall k :: 0 <= k < |st| ==> !st[k].hasRebelled
  }

  /** A valid state replacing the k-th of valid states leaves them valid. */
  lemma ValidAfter(st: seq<CountryState>, k: nat, v: CountryState)
    requires ValidStates(st) && k < |st| && Sound(v) && !v.hasRebelled
    ensures ValidStates(st[k := v])
  {
  }

  /** The years the global-events record covers. */
  const Years: set<int> := set y | 1 <= y <= 20

  /** The global-events record of a new world: the years 1..20, none of
      them done. */
  function NoneDone(): (r: map<int, bool>)
    ensures forall y :: y in r <==> 1 <= y <= 20
    ensures forall y :: y in r ==> !r[y]
  {
    map y | y in Years :: false
  }

  /** One war's random outcomes: the attacker's exploration coin and pick,
      and the coin for a peace agreement. */
  datatype FightDraw = FightDraw(coin: real, pick: nat, peaceCoin: real)

  /** What one war of `simulate_war` does once the attacker has chosen: the
      attacker's and the defender's states, the ecosystem's health, global
      pollution and regional entries, and the reward and next state the
      attacker learns from. */
  datatype Clash = Clash(attacker: CountryState, defender: CountryState, health: real,
                         globalPollution: real, regional: map<string, real>, reward: real, next: State)

  /** The attacker, on state `seen`, has chosen `action`: peace earns reward
      1 and equal scores reward -1, both changing nothing; a decided war
      applies AfterWar to the two sides, raises global pollution by 2 and
      both regional entries by 12, costs the ecosystem 15 health, and
      rewards the attacker by WarReward, with 10 more for a win or 10 less
      for a defeat. */
  function Clashed(A: CountryState, D: CountryState, aName: string, dName: string, h0: real,
                   g0: real, r0: map<string, real>, seen: State, action: Action, peace: bool): (c: Clash)
    requires Sound(A) && Sound(D) && aName in r0 && dName in r0
  {
    if action == Peace then Clash(A, D, h0, g0, r0, 1.0, seen)
    else if Battle(A, D) == Stalemate then Clash(A, D, h0, g0, r0, -1.0, seen)
    else
      var won := Battle(A, D) == AttackerWins;
      var after := AfterWar(A, D, aName, dName, peace);
      var h1 := WarHealth(h0);
      var regional := if won then WarRegional(r0, aName, dName) else WarRegional(r0, dName, aName);
      Clash(after.0, after.1, h1, g0 + 2.0, regional, WarReward(A, after.0, h0, h1, won),
            Observe(after.0, h1, Some(TensionToward(after.0, dName))))
  }

  /** The attacker's state as its agent reads it before a war. */
  function Seen(A: CountryState, dName: string, h0: real): State
  {
    Observe(A, h0, Some(TensionToward(A, dName)))
  }

  /** The attacker's choice: epsilon-greedy over its war table's row. */
  function WarChoice(A: CountryState, dName: string, h0: real, table: QTable, f: FightDraw): (a: Action)
    requires WellFormed(table, War) && f.pick < 2
    ensures a in Domain(War)
  {
    Choose(RowOf(table, War, Seen(A, dName, h0)), War, f.coin, f.pick)
  }

  /** The attacker's war table after one war: the row of its state is read
      (and inserted) by the choice, then updated with the clash's reward. */
  function WarTable(table: QTable, seen: State, action: Action, c: Clash): (t: QTable)
    requires WellFormed(table, War) && action in Domain(War)
    ensures WellFormed(t, War)
  {
    Updated(Touched(table, War, seen), War, seen, action, c.reward, c.next)
  }

  /** The order `random.shuffle` leaves n candidates in: each index once. */
  predicate IsShuffle(order: seq<nat>, n: nat)
  {
    && |order| == n
    && (forall k :: 0 <= k < n ==> order[k] < n)
    && (forall k, l :: 0 <= k < l < n ==> order[k] != order[l])
  }

  /** Everything one simulated year draws. */
  datatype YearDraw = YearDraw(
    events: EventDraw,
    losses: seq<map<Resource, int>>,
    disasters: DisasterDraw,
    order: seq<nat>,
    fights: seq<FightDraw>,
    turns: seq<TurnDraw>)

  /** A turn's draws fit the me-th of n countries: in range, and, when
      there is another country, a trade partner other than itself. */
  predicate TurnFits(d: TurnDraw, n: nat, me: nat)
  {
    DrawInRange(d) && (n >= 2 ==> d.partner < n && d.partner != me)
  }

  /** The two wars a year can hold each have an attacker's draw in range. */
  predicate FightsFit(fights: seq<FightDraw>)
  {
    |fights| >= 2 && fights[0].pick < 2 && fights[1].pick < 2
  }

  /** A year's draws fit a world of n countries. */
  predicate Fits(draw: YearDraw, n: nat)
  {
    && |draw.losses| == n
    && AllMeteorLosses(draw.losses)
    && draw.disasters.quakeTarget < n
    && FightsFit(draw.fights)
    && |draw.turns| == n
    && (forall i :: 0 <= i < n ==> TurnFits(draw.turns[i], n, i))
  }

  // ---------------------------------------------------------------- world

  /** What an agent has learned: its investment, agreement and war tables. */
  datatype Mind = Mind(investQ: QTable, agreeQ: QTable, warQ: QTable)

  /** Every row of each table has exactly the actions of its domain. */
  predicate MindOk(m: Mind)
  {
    WellFormed(m.investQ, Invest) && WellFormed(m.agreeQ, Agree) && WellFormed(m.warQ, War)
  }

  /** Every agent's tables are well formed. */
  predicate MindsOk(ms: seq<Mind>)
  {
    forall i :: 0 <= i < |ms| ==> MindOk(ms[i])
  }

  /** One sound state in place of another keeps every state sound. */
  lemma SoundAt(st: seq<CountryState>, k: nat, v: CountryState)
    requires AllSound(st) && k < |st| && Sound(v)
    ensures AllSound(st[k := v])
  {
  }

  /** One agent's well-formed tables in place of another's keep every
      agent's tables well formed. */
  lemma MindAt(ms: seq<Mind>, k: nat, m: Mind)
    requires MindsOk(ms) && k < |ms| && MindOk(m)
    ensures MindsOk(ms[k := m])
  {
  }

  /** The world between two steps: the countries' names, states and agents'
      tables, in list order; the ecosystem's health, global pollution,
      regional entries and alarm level; and the record of the years whose
      global events are done. */
  datatype Globe = Globe(names: seq<string>, states: seq<CountryState>, minds: seq<Mind>,
                         health: real, globalPollution: real, regional: map<string, real>,
                         alarm: int, done: map<int, bool>)

  /** The bounds every step keeps: at least one country, every state sound,
      every table well formed, global pollution not negative, health within
      0..100, the alarm within 0..3, a regional entry for every country, and
      a record for exactly the years 1..20. */
  ghost predicate GlobeOk(g: Globe)
  {
    && |g.states| == |g.names| && |g.minds| == |g.names| && |g.names| > 0
    && AllSound(g.states)
    && MindsOk(g.minds)
    && g.globalPollution >= 0.0
    && 0.0 <= g.health <= 100.0
    && 0 <= g.alarm <= 3
    && Covers(g.regional, g.names)
    && (forall y :: y in g.done <==> 1 <= y <= 20)
  }

  // ----------------------------------------------------------------- turn

  /** Upkeep and taxes of the me-th country: its upkeep at the ecosystem's
      health, then taxes at global pollution; health and the country's
      regional entry take what the upkeep adds. */
  function Prepared(g: Globe, me: nat, d: TurnDraw): (r: Globe)
    requires GlobeOk(g) && me < |g.states| && DrawInRange(d)
    ensures GlobeOk(r) && r.names == g.names && r.minds == g.minds && r.done == g.done
  {
    var s := g.states[me];
    SoundAt(g.states, me, Taxed(Upkeep(s, g.health, d), g.globalPollution));
    g.(states := g.states[me := Taxed(Upkeep(s, g.health, d), g.globalPollution)],
       health := UpkeepHealth(s, g.health),
       regional := Raised(g.regional, g.names[me], UpkeepPollution(s)))
  }

  /** The me-th country's trade with the p-th: the course PlanTrade gives,
      the buyer's and the seller's side of it, and the buyer's regional
      entry. */
  function Traded(g: Globe, me: nat, p: nat, quantity: int, coin: real): (r: Globe)
    requires GlobeOk(g) && me < |g.states| && p < |g.states| && p != me && 5 <= quantity <= 20
    ensures GlobeOk(r) && r.names == g.names && r.minds == g.minds && r.done == g.done
  {
    var plan := PlanTrade(g.states[me], g.states[p], g.names[p], false, g.health, quantity, coin);
    g.(states := g.states[me := BuyerSide(g.states[me], g.names[p], plan)]
                         [p := SellerSide(g.states[p], g.names[me], plan)],
       regional := TradeRegional(g.regional, g.names[me], plan))
  }

  /** The me-th country's agreement decision: nothing when it has signed;
      otherwise its agent chooses on what it observes, the answer reaches
      every country and the ecosystem, and the agent's agreement table
      learns from the reward. */
  function Pledged(g: Globe, me: nat, coin: real, pick: nat): (r: Globe)
    requires GlobeOk(g) && me < |g.states| && pick < 2
    ensures GlobeOk(r) && r.names == g.names && r.done == g.done
  {
    if g.states[me].agreement == 1 then g
    else
      var s := g.states[me];
      var seen := Observe(s, g.health, None);
      var table := g.minds[me].agreeQ;
      var action := Choose(RowOf(table, Agree, seen), Agree, coin, pick);
      var states := Answered(g.states, g.names, me, action);
      var health := AgreementHealth(g.health, action);
      var reward := AgreementReward(s, states[me], g.health, health);
      var mind := g.minds[me].(agreeQ := Updated(Touched(table, Agree, seen), Agree, seen,
                                                 action, reward, Observe(states[me], health, None)));
      AnsweredSound(g.states, g.names, me, action);
      MindAt(g.minds, me, mind);
      g.(states := states, health := health,
         regional := AgreementRegional(g.regional, g.names[me], action),
         minds := g.minds[me := mind])
  }

  /** The me-th country's investment decision: nothing below 10 million in
      money; otherwise its agent picks an area on what it observes, the
      investment applies to the country and the ecosystem, and the agent's
      investment table learns from the reward. */
  function Financed(g: Globe, me: nat, coin: real, pick: nat): (r: Globe)
    requires GlobeOk(g) && me < |g.states| && pick < 3
    ensures GlobeOk(r) && r.names == g.names && r.done == g.done
  {
    if g.states[me].money < 10000000 then g
    else
      var s := g.states[me];
      var seen := Observe(s, g.health, None);
      var table := g.minds[me].investQ;
      var area := Choose(RowOf(table, Invest, seen), Invest, coin, pick);
      var after := Invested(s, area, g.health);
      var health := HealthAfterInvestment(s, area, g.health);
      var name := g.names[me];
      var mind := g.minds[me].(investQ := Updated(Touched(table, Invest, seen), Invest, seen,
                                                  area, InvestmentReward(s, after, g.health, health),
                                                  Observe(after, health, None)));
      SoundAt(g.states, me, after);
      MindAt(g.minds, me, mind);
      g.(states := g.states[me := after], health := health,
         globalPollution := GlobalAfterInvestment(g.globalPollution, s, area, g.health),
         regional := g.regional[name := RegionalAfterInvestment(g.regional[name], s, area, g.health)],
         minds := g.minds[me := mind])
  }

  /** The me-th country's political check and the end of its year. */
  function Concluded(g: Globe, me: nat, coin: real, restored: int): (r: Globe)
    requires GlobeOk(g) && me < |g.states| && 30 <= restored <= 40
    ensures GlobeOk(r) && r.names == g.names && r.minds == g.minds && r.done == g.done
  {
    SoundAt(g.states, me, YearEnd(PoliticalCheck(g.states[me]), coin, restored));
    g.(states := g.states[me := YearEnd(PoliticalCheck(g.states[me]), coin, restored)])
  }

  /** `simulate_turn` of the me-th country: upkeep and taxes, then the
      trade, the agreement and investment decisions, the political check and
      the end of the year. With no other country there is no partner to
      draw, and the turn ends after the taxes. */
  function Turned(g: Globe, me: nat, d: TurnDraw): (r: Globe)
    requires GlobeOk(g) && me < |g.states| && TurnFits(d, |g.states|, me)
    ensures GlobeOk(r) && r.names == g.names && r.done == g.done
  {
    var prepared := Prepared(g, me, d);
    if |g.states| < 2 then prepared else Dealt(prepared, me, d)
  }

  /** The turn after the taxes: the trade with the drawn partner, the
      agreement and investment decisions, the political check and the end
      of the year. */
  function Dealt(g: Globe, me: nat, d: TurnDraw): (r: Globe)
    requires GlobeOk(g) && me < |g.states| && 2 <= |g.states| && TurnFits(d, |g.states|, me)
    ensures GlobeOk(r) && r.names == g.names && r.done == g.done
  {
    var traded := Traded(g, me, d.partner, d.tradeQuantity, d.tradeCoin);
    var pledged := Pledged(traded, me, d.agreeCoin, d.agreePick);
    var financed := Financed(pledged, me, d.investCoin, d.investPick);
    Concluded(financed, me, d.rebellionCoin, d.restoredHappiness)
  }

  /** The j-th country's turn on the drawn turns. A globe the turn does not
      fit, which no run of the first turns reaches, is kept as it is. */
  ghost function TurnStep(turns: seq<TurnDraw>): (Globe, nat) -> Globe
  {
    (h: Globe, j: nat) =>
      if GlobeOk(h) && j < |h.states| && j < |turns| && TurnFits(turns[j], |h.states|, j)
      then Turned(h, j, turns[j]) else h
  }

  /** h keeps the bounds, and g's names and record of done years. */
  ghost predicate Sized(g: Globe, h: Globe)
  {
    GlobeOk(h) && h.names == g.names && h.done == g.done
  }

  /** Every turn keeps the bounds, the names and the record. */
  lemma TurnStepSized(g: Globe, turns: seq<TurnDraw>)
    ensures forall h: Globe, j: nat :: Sized(g, h) ==> Sized(g, TurnStep(turns)(h, j))
  {
  }

  /** On a run of the turns, the one after the i-th globe is the i-th
      country's turn on it. */
  lemma TurnTaken(g: Globe, turns: seq<TurnDraw>, n: nat, i: nat)
    requires i < n && |turns| == n
    requires forall k :: 0 <= k < n ==> TurnFits(turns[k], n, k)
    requires GlobeOk(Iterate(g, TurnStep(turns), n)[i]) && |Iterate(g, TurnStep(turns), n)[i].states| == n
    ensures Iterate(g, TurnStep(turns), n)[i + 1] == Turned(Iterate(g, TurnStep(turns), n)[i], i, turns[i])
  {
    IterateStep(g, TurnStep(turns), n, i);
  }

  /** The turns of the first i countries, in list order. */
  ghost function TurnsTaken(g: Globe, turns: seq<TurnDraw>, i: nat): (r: Globe)
    requires GlobeOk(g) && i <= |g.states| && |turns| == |g.states|
    requires forall k :: 0 <= k < |turns| ==> TurnFits(turns[k], |g.states|, k)
    ensures GlobeOk(r) && r.names == g.names && r.done == g.done
  {
    TurnStepSized(g, turns);
    IterateKeeps(g, TurnStep(turns), (h: Globe) => Sized(g, h), i);
    Iterate(g, TurnStep(turns), i)[i]
  }

  // --------------------------------------------------------------- events

  /** `simulate_global_events`: a year outside the record, or one whose
      events are done, changes nothing. Otherwise the year is marked done
      and the year's events strike. */
  function EventsPassed(g: Globe, year: int, draw: EventDraw, losses: seq<map<Resource, int>>,
                        disasters: DisasterDraw): (r: Globe)
    requires GlobeOk(g) && |losses| == |g.states| && AllMeteorLosses(losses)
    requires disasters.quakeTarget < |g.states|
    ensures GlobeOk(r) && r.names == g.names && r.minds == g.minds
  {
    if year !in g.done || g.done[year] then g
    else Befallen(g.(done := g.done[year := true]), draw, losses, disasters)
  }

  /** The year's events: the drawn events strike every country in their
      fixed order, global pollution becomes the mean pollution, the regional
      record is rebuilt, health decays, the alarm is raised, and the
      disasters strike. */
  function Befallen(g: Globe, draw: EventDraw, losses: seq<map<Resource, int>>,
                  disasters: DisasterDraw): (r: Globe)
    requires GlobeOk(g) && |losses| == |g.states| && AllMeteorLosses(losses)
    requires disasters.quakeTarget < |g.states|
    ensures GlobeOk(r) && r.names == g.names && r.minds == g.minds && r.done == g.done
  {
    var struck := Stricken(g.states, draw, losses, |EventOrder|);
    var p := Pollutions(struck);
    var mean := Mean(p);
    var regional := RegionalEntries(g.names, p, |p|);
    var alarm := RaisedAlarm(g.alarm, mean);
    UpdateKeepsBounds(struck, g.names);
    AlarmRatchet(g.alarm, mean);
    g.(states := Disasters(Penalised(struck, |struck|), g.names, regional, alarm, disasters),
       globalPollution := mean, regional := regional, health := HealthAfter(g.health, mean),
       alarm := alarm)
  }

  /** The events mark their year done and touch no other year's record. */
  lemma EventsMark(g: Globe, year: int, draw: EventDraw, losses: seq<map<Resource, int>>,
                   disasters: DisasterDraw)
    requires GlobeOk(g) && |losses| == |g.states| && AllMeteorLosses(losses)
    requires disasters.quakeTarget < |g.states|
    ensures var r := EventsPassed(g, year, draw, losses, disasters);
            r.done == if year in g.done then g.done[year := true] else g.done
  {
    if year in g.done && g.done[year] {
      assert g.done[year := true] == g.done;
    }
  }

  // ----------------------------------------------------------------- wars

  /** One war, the ai-th country attacking the di-th, in three phases: the
      attacker's agent chooses on what it observes (reading, and inserting,
      its war-table row), the clash applies to both sides and the
      ecosystem, and the attacker's war table learns from the reward. */
  function Fought(g: Globe, ai: nat, di: nat, f: FightDraw): (r: Globe)
    requires GlobeOk(g) && ai < |g.states| && di < |g.states| && ai != di && f.pick < 2
    ensures GlobeOk(r) && r.names == g.names && r.done == g.done
  {
    var seen := Seen(g.states[ai], g.names[di], g.health);
    var action := WarChoice(g.states[ai], g.names[di], g.health, g.minds[ai].warQ, f);
    var c := ClashOf(g, ai, di, f);
    Learned(Clashing(Chose(g, ai, seen), ai, di, seen, action, f.peaceCoin < 0.5), ai, seen, action, c.reward, c.next)
  }

  /** The clash of the ai-th country's attack on the di-th, on the action
      its agent chooses. */
  function ClashOf(g: Globe, ai: nat, di: nat, f: FightDraw): Clash
    requires GlobeOk(g) && ai < |g.states| && di < |g.states| && f.pick < 2
  {
    var A, D := g.states[ai], g.states[di];
    var action := WarChoice(A, g.names[di], g.health, g.minds[ai].warQ, f);
    Clashed(A, D, g.names[ai], g.names[di], g.health, g.globalPollution, g.regional,
            Seen(A, g.names[di], g.health), action, f.peaceCoin < 0.5)
  }

  /** The first phase of a war: the attacker's agent reads the row of its
      war table for `seen`, inserting it when missing. */
  function Chose(g: Globe, ai: nat, seen: State): (r: Globe)
    requires GlobeOk(g) && ai < |g.states|
    ensures GlobeOk(r) && r.names == g.names && r.states == g.states && r.done == g.done
    ensures r.health == g.health && r.globalPollution == g.globalPollution
    ensures r.regional == g.regional && r.alarm == g.alarm
    ensures |r.minds| == |g.minds| && forall k :: 0 <= k < |g.minds| && k != ai ==> r.minds[k] == g.minds[k]
  {
    var mind := g.minds[ai].(warQ := Touched(g.minds[ai].warQ, War, seen));
    MindAt(g.minds, ai, mind);
    g.(minds := g.minds[ai := mind])
  }

  /** The second phase: the clash of the attacker's chosen action on both
      sides and on the ecosystem. */
  function Clashing(g: Globe, ai: nat, di: nat, seen: State, action: Action, peace: bool): (r: Globe)
    requires GlobeOk(g) && ai < |g.states| && di < |g.states| && ai != di
    ensures GlobeOk(r) && r.names == g.names && r.minds == g.minds && r.done == g.done && r.alarm == g.alarm
    ensures |r.states| == |g.states| && forall k :: 0 <= k < |g.states| && k != ai && k != di ==> r.states[k] == g.states[k]
  {
    var A, D := g.states[ai], g.states[di];
    var c := Clashed(A, D, g.names[ai], g.names[di], g.health, g.globalPollution, g.regional, seen, action, peace);
    ClashedKeeps(A, D, g.names[ai], g.names[di], g.health, g.globalPollution, g.regional, seen, action, peace);
    SoundAt(g.states, ai, c.attacker);
    SoundAt(g.states[ai := c.attacker], di, c.defender);
    g.(states := g.states[ai := c.attacker][di := c.defender],
       health := c.health, globalPollution := c.globalPollution, regional := c.regional)
  }

  /** The third phase: the attacker's war table learns from the reward. */
  function Learned(g: Globe, ai: nat, seen: State, action: Action, reward: real, next: State): (r: Globe)
    requires GlobeOk(g) && ai < |g.states| && action in Domain(War)
    ensures GlobeOk(r) && r.names == g.names && r.states == g.states && r.done == g.done
    ensures r.health == g.health && r.globalPollution == g.globalPollution
    ensures r.regional == g.regional && r.alarm == g.alarm
    ensures |r.minds| == |g.minds| && forall k :: 0 <= k < |g.minds| && k != ai ==> r.minds[k] == g.minds[k]
  {
    var mind := g.minds[ai].(warQ := Updated(g.minds[ai].warQ, War, seen, action, reward, next));
    MindAt(g.minds, ai, mind);
    g.(minds := g.minds[ai := mind])
  }

  /** A clash keeps both sides sound, health within 0..100, global
      pollution from falling and every regional key. */
  lemma ClashedKeeps(A: CountryState, D: CountryState, aName: string, dName: string, h0: real,
                     g0: real, r0: map<string, real>, seen: State, action: Action, peace: bool)
    requires Sound(A) && Sound(D) && aName in r0 && dName in r0 && 0.0 <= h0 <= 100.0
    ensures var c := Clashed(A, D, aName, dName, h0, g0, r0, seen, action, peace);
            && Sound(c.attacker) && Sound(c.defender)
            && 0.0 <= c.health <= 100.0 && c.globalPollution >= g0 && c.regional.Keys == r0.Keys
  {
  }

  /** What a country holds of resource x. */
  function Held(s: CountryState, x: Resource): int
  {
    if x in s.resources then s.resources[x] else 0
  }

  /** The world's stock of resource x: the sum over every country. */
  function Stock(st: seq<CountryState>, x: Resource): int
  {
    if st == [] then 0 else Stock(st[..|st| - 1], x) + Held(st[|st| - 1], x)
  }

  /** Replacing the k-th state changes the stock by the difference. */
  lemma {:induction false} StockAt(st: seq<CountryState>, k: nat, v: CountryState, x: Resource)
    requires k < |st|
    ensures Stock(st[k := v], x) == Stock(st, x) - Held(st[k], x) + Held(v, x)
    decreases |st|
  {
    var t := st[k := v];
    if k < |st| - 1 {
      assert t[..|t| - 1] == st[..|st| - 1][k := v];
      StockAt(st[..|st| - 1], k, v, x);
    } else {
      assert t[..|t| - 1] == st[..|st| - 1];
    }
  }

  /** A clash moves resources between its two sides and creates none; a
      peace choice or a stalemate leaves both sides as they were. */
  lemma ClashConserves(A: CountryState, D: CountryState, aName: string, dName: string, h0: real,
                       g0: real, r0: map<string, real>, seen: State, action: Action, peace: bool)
    requires Sound(A) && Sound(D) && aName in r0 && dName in r0
    ensures var c := Clashed(A, D, aName, dName, h0, g0, r0, seen, action, peace);
            forall x: Resource ::
              Held(c.attacker, x) + Held(c.defender, x) == Held(A, x) + Held(D, x)
    ensures var c := Clashed(A, D, aName, dName, h0, g0, r0, seen, action, peace);
            action == Peace || Battle(A, D) == Stalemate ==> c.attacker == A && c.defender == D
  {
    if action != Peace && Battle(A, D) != Stalemate {
      if Battle(A, D) == AttackerWins {
        SettledShape(Victor(A, D), dName, 10, peace);
        SettledShape(Vanquished(D), aName, 30, peace);
        SpoilsConserved(A, D);
      } else {
        SettledShape(Vanquished(A), dName, 30, peace);
        SettledShape(Victor(D, A), aName, 10, peace);
        SpoilsConserved(D, A);
      }
    }
  }

  /** A war keeps the world's stock of every resource, and changes no
      country but the two at war. */
  lemma FoughtConserves(g: Globe, ai: nat, di: nat, f: FightDraw)
    requires GlobeOk(g) && ai < |g.states| && di < |g.states| && ai != di && f.pick < 2
    ensures var r := Fought(g, ai, di, f);
            && (forall x: Resource :: Stock(r.states, x) == Stock(g.states, x))
            && (forall k :: 0 <= k < |g.states| && k != ai && k != di ==> r.states[k] == g.states[k])
  {
    var A, D := g.states[ai], g.states[di];
    var c := ClashOf(g, ai, di, f);
    assert Fought(g, ai, di, f).states == g.states[ai := c.attacker][di := c.defender];
    ClashConserves(A, D, g.names[ai], g.names[di], g.health, g.globalPollution, g.regional,
                   Seen(A, g.names[di], g.health),
                   WarChoice(A, g.names[di], g.health, g.minds[ai].warQ, f), f.peaceCoin < 0.5);
    StockTwice(g.states, ai, c.attacker, di, c.defender);
  }

  /** Two states replaced whose holdings sum as before keep every stock. */
  lemma StockTwice(st: seq<CountryState>, i: nat, a: CountryState, j: nat, b: CountryState)
    requires i < |st| && j < |st| && i != j
    requires forall x: Resource :: Held(a, x) + Held(b, x) == Held(st[i], x) + Held(st[j], x)
    ensures forall x: Resource :: Stock(st[i := a][j := b], x) == Stock(st, x)
  {
    forall x: Resource
      ensures Stock(st[i := a][j := b], x) == Stock(st, x)
    {
      StockAt(st, i, a, x);
      StockAt(st[i := a], j, b, x);
    }
  }

  /** The candidates' pairs name two different countries among n. */
  predicate Paired(wars: seq<(nat, nat)>, n: nat)
  {
    forall p :: p in wars ==> p.0 < n && p.1 < n && p.0 != p.1
  }

  /** The globe x, then the result of each step in turn: the j-th step takes the j-th
      element to the next. */
  function Iterate(x: Globe, step: (Globe, nat) -> Globe, k: nat): (r: seq<Globe>)
    ensures |r| == k + 1 && r[0] == x
    decreases k
  {
    if k == 0 then [x]
    else
      var p := Iterate(x, step, k - 1);
      p + [step(p[k - 1], k - 1)]
  }

  /** Each element after the first is the step applied to the one before. */
  lemma {:induction false} IterateStep(x: Globe, step: (Globe, nat) -> Globe, n: nat, k: nat)
    requires k < n
    ensures Iterate(x, step, n)[k + 1] == step(Iterate(x, step, n)[k], k)
    decreases n
  {
    var p := Iterate(x, step, n - 1);
    assert Iterate(x, step, n) == p + [step(p[n - 1], n - 1)];
    if k < n - 1 {
      IterateStep(x, step, n - 1, k);
    }
  }

  /** A property that every step keeps holds of every element. */
  lemma {:induction false} IterateKeeps(x: Globe, step: (Globe, nat) -> Globe, inv: Globe -> bool, n: nat)
    requires inv(x)
    requires forall y: Globe, j: nat :: inv(y) ==> inv(step(y, j))
    ensures forall k :: 0 <= k <= n ==> inv(Iterate(x, step, n)[k])
    decreases n
  {
    if n > 0 {
      IterateKeeps(x, step, inv, n - 1);
      var p := Iterate(x, step, n - 1);
      assert Iterate(x, step, n) == p + [step(p[n - 1], n - 1)];
      forall k | 0 <= k <= n
        ensures inv(Iterate(x, step, n)[k])
      {
        if k < n {
          assert Iterate(x, step, n)[k] == p[k];
        } else {
          assert inv(p[n - 1]);
          assert Iterate(x, step, n)[k] == step(p[n - 1], n - 1);
          assert inv(step(p[n - 1], n - 1));
        }
      }
    }
  }

  /** The j-th war of the shuffled candidates fits the globe h: its draw
      and its pair are in range, and the pair names two countries of h. */
  ghost predicate WarFits(h: Globe, wars: seq<(nat, nat)>, order: seq<nat>, fights: seq<FightDraw>, j: nat)
  {
    && GlobeOk(h) && j < |order| && j < |fights| && order[j] < |wars| && fights[j].pick < 2
    && wars[order[j]].0 < |h.states| && wars[order[j]].1 < |h.states|
    && wars[order[j]].0 != wars[order[j]].1
  }

  /** The war step along the shuffled candidates: step j fights the war
      order[j] names, on the j-th draw. A globe the war does not fit, which
      no run of the first wars reaches, is kept as it is. */
  ghost function WarStep(wars: seq<(nat, nat)>, order: seq<nat>, fights: seq<FightDraw>): (Globe, nat) -> Globe
  {
    (h: Globe, j: nat) =>
      if WarFits(h, wars, order, fights, j)
      then Fought(h, wars[order[j]].0, wars[order[j]].1, fights[j])
      else h
  }

  /** h is a sound globe with g's names, record and stock of every resource. */
  ghost predicate Conserved(g: Globe, h: Globe)
  {
    GlobeOk(h) && h.names == g.names && h.done == g.done
    && forall x: Resource :: Stock(h.states, x) == Stock(g.states, x)
  }

  /** Every war step keeps a globe conserved. */
  lemma WarStepConserves(g: Globe, wars: seq<(nat, nat)>, order: seq<nat>, fights: seq<FightDraw>)
    ensures forall h: Globe, j: nat :: Conserved(g, h) ==> Conserved(g, WarStep(wars, order, fights)(h, j))
  {
    forall h: Globe, j: nat | Conserved(g, h)
      ensures Conserved(g, WarStep(wars, order, fights)(h, j))
    {
      if WarFits(h, wars, order, fights, j) {
        FoughtConserves(h, wars[order[j]].0, wars[order[j]].1, fights[j]);
      }
    }
  }

  /** The first k wars of the shuffled candidates, in order; they keep the
      world sound and its stock of every resource. */
  ghost function FoughtFirst(g: Globe, wars: seq<(nat, nat)>, order: seq<nat>, fights: seq<FightDraw>,
                       k: nat): (r: Globe)
    requires GlobeOk(g)
    ensures GlobeOk(r) && r.names == g.names && r.done == g.done
    ensures forall x: Resource :: Stock(r.states, x) == Stock(g.states, x)
  {
    WarStepConserves(g, wars, order, fights);
    IterateKeeps(g, WarStep(wars, order, fights), (h: Globe) => Conserved(g, h), k);
    Iterate(g, WarStep(wars, order, fights), k)[k]
  }

  /** The first two (or fewer) shuffled positions name candidates, and
      each has a draw whose pick is 0 or 1. */
  lemma FirstTwoFit(order: seq<nat>, fights: seq<FightDraw>, m: nat)
    requires IsShuffle(order, m) && FightsFit(fights)
    ensures IntMin(2, m) <= |order| && IntMin(2, m) <= |fights|
    ensures forall j :: 0 <= j < IntMin(2, m) ==> order[j] < m && fights[j].pick < 2
  {
  }

  /** The wars themselves: the candidates in the order of the nested loops,
      shuffled, and the first two (or fewer) fought. */
  ghost function Warred(g: Globe, order: seq<nat>, fights: seq<FightDraw>): (r: Globe)
    requires GlobeOk(g) && FightsFit(fights)
    requires IsShuffle(order, |Candidates(g.states, g.names, g.globalPollution, |g.states|)|)
    ensures GlobeOk(r) && r.names == g.names && r.done == g.done
  {
    var wars := Candidates(g.states, g.names, g.globalPollution, |g.states|);
    CandidatesExactly(g.states, g.names, g.globalPollution, |g.states|);
    FoughtFirst(g, wars, order, fights, IntMin(2, |wars|))
  }

  /** `simulate_war`: a year outside the record, or one whose global events
      are done, changes nothing; otherwise the wars are fought. */
  ghost function WarsPassed(g: Globe, year: int, order: seq<nat>, fights: seq<FightDraw>): (r: Globe)
    requires GlobeOk(g) && FightsFit(fights)
    requires year in g.done && !g.done[year] ==>
               IsShuffle(order, |Candidates(g.states, g.names, g.globalPollution, |g.states|)|)
    ensures GlobeOk(r) && r.names == g.names && r.done == g.done
  {
    if year !in g.done || g.done[year] then g else Warred(g, order, fights)
  }

  /** A year's war phase keyed on a record of its own, `fought`, rather than
      on the global-events record: a year in the record whose wars are not
      yet fought has them fought, whatever its global events did. */
  ghost function WarsKeyed(g: Globe, year: int, fought: bool, order: seq<nat>, fights: seq<FightDraw>): (r: Globe)
    requires GlobeOk(g) && FightsFit(fights)
    requires year in g.done && !fought ==>
               IsShuffle(order, |Candidates(g.states, g.names, g.globalPollution, |g.states|)|)
    ensures GlobeOk(r) && r.names == g.names && r.done == g.done
  {
    if year !in g.done || fought then g else Warred(g, order, fights)
  }

  // ---------------------------------------------------------- years, runs

  /** One year of `simulate_world`: global events, wars, then every
      country's turn in list order. */
  ghost function YearPassed(g: Globe, year: int, draw: YearDraw): (r: Globe)
    requires GlobeOk(g) && Fits(draw, |g.states|)
    ensures GlobeOk(r) && r.names == g.names
    ensures r.done == if year in g.done then g.done[year := true] else g.done
  {
    EventsMark(g, year, draw.events, draw.losses, draw.disasters);
    var events := EventsPassed(g, year, draw.events, draw.losses, draw.disasters);
    var wars := WarsPassed(events, year, draw.order, draw.fights);
    TurnsTaken(wars, draw.turns, |g.states|)
  }

  /** The first `years` years of `simulate_world`, year k on the k-th draw,
      as the error handlers mean them to run: an error is logged and the run
      goes on, so every year is passed. */
  ghost function Simulated(g: Globe, years: nat, draws: seq<YearDraw>): (r: Globe)
    requires GlobeOk(g) && years <= |draws|
    requires forall k :: 0 <= k < |draws| ==> Fits(draws[k], |g.states|)
    ensures GlobeOk(r) && r.names == g.names
    decreases years
  {
    if years == 0 then g
    else YearPassed(Simulated(g, years - 1, draws), years, draws[years - 1])
  }

  /** A run that logs its errors and goes on passes its last year, which is
      then marked done, whatever the number of countries. */
  lemma SimulatedPassesLast(g: Globe, years: nat, draws: seq<YearDraw>)
    requires GlobeOk(g) && 1 <= years <= 20 && years <= |draws|
    requires forall k :: 0 <= k < |draws| ==> Fits(draws[k], |g.states|)
    ensures Simulated(g, years, draws).done[years]
  {
    var prev := Simulated(g, years - 1, draws);
    assert Simulated(g, years, draws) == YearPassed(prev, years, draws[years - 1]);
  }

  /** How many years a run of `simulate_world` over `years` years, in a
      world of n countries, passes before it ends. Every error handler hands
      `exception=True` on to `print`, which rejects it, so an error ends the
      run rather than being logged: year 21, which the record of global
      events does not hold, ends the run at its first step, before it
      changes anything, and in a world of one country the first turn ends
      the run when it finds no other country to trade with. */
  function YearsRun(n: nat, years: nat): (r: nat)
    ensures r <= years && r <= 20
    ensures r == years || r == (if n < 2 then 1 else 20)
    ensures n < 2 ==> r <= 1
  {
    var last := if n < 2 then 1 else 20;
    if years < last then years else last
  }

  /** A run of `simulate_world` as the program is written: the years it
      passes, in order. The year that ends it is either outside the record,
      and then changes nothing, or the first year of a world of one country,
      whose turn stops after the taxes and which is passed. */
  ghost function Run(g: Globe, years: nat, draws: seq<YearDraw>): (r: Globe)
    requires GlobeOk(g) && years <= |draws|
    requires forall k :: 0 <= k < |draws| ==> Fits(draws[k], |g.states|)
    ensures GlobeOk(r) && r.names == g.names
  {
    Simulated(g, YearsRun(|g.states|, years), draws)
  }

  /** As written, a run of two years in a world of one country never
      reaches its second year, which a run that logs its errors and goes on
      does pass. */
  lemma RunStopsEarly(g: Globe, draws: seq<YearDraw>)
    requires GlobeOk(g) && |g.states| == 1 && 2 <= |draws| && g.done == NoneDone()
    requires forall k :: 0 <= k < |draws| ==> Fits(draws[k], |g.states|)
    ensures !Run(g, 2, draws).done[2] && Simulated(g, 2, draws).done[2]
  {
    SimulatedPassesLast(g, 2, draws);
    assert YearsRun(1, 2) == 1;
    var first := YearPassed(g, 1, draws[0]);
    assert Simulated(g, 1, draws) == first;
    assert first.done == g.done[1 := true];
  }

  /** With several countries and at most 20 years, the run as written and
      the run that logs its errors are the same run. */
  lemma RunAgrees(g: Globe, years: nat, draws: seq<YearDraw>)
    requires GlobeOk(g) && 2 <= |g.states| && years <= 20 && years <= |draws|
    requires forall k :: 0 <= k < |draws| ==> Fits(draws[k], |g.states|)
    ensures Run(g, years, draws) == Simulated(g, years, draws)
  {
  }

  // ------------------------------------------------------- the war phase

  /** As written, the war phase of a year follows the year's global events,
      which have just marked the year done, so it changes nothing: a year is
      its global events and then the turns. */
  lemma WarsNeverFought(g: Globe, year: int, draw: YearDraw)
    requires GlobeOk(g) && Fits(draw, |g.states|)
    ensures var e := EventsPassed(g, year, draw.events, draw.losses, draw.disasters);
            && WarsPassed(e, year, draw.order, draw.fights) == e
            && YearPassed(g, year, draw) == TurnsTaken(e, draw.turns, |g.states|)
  {
    EventsMark(g, year, draw.events, draw.losses, draw.disasters);
  }

  /** Keyed on its own record, the war phase of a year in 1..20 that follows
      the year's global events does fight the drawn wars, and those wars
      keep the world's stock of every resource. */
  lemma KeyedWarsFought(g: Globe, year: int, draw: YearDraw)
    requires GlobeOk(g) && Fits(draw, |g.states|) && 1 <= year <= 20
    requires var e := EventsPassed(g, year, draw.events, draw.losses, draw.disasters);
             IsShuffle(draw.order, |Candidates(e.states, e.names, e.globalPollution, |e.states|)|)
    ensures var e := EventsPassed(g, year, draw.events, draw.losses, draw.disasters);
            && WarsKeyed(e, year, false, draw.order, draw.fights) == Warred(e, draw.order, draw.fights)
            && forall x: Resource ::
                 Stock(WarsKeyed(e, year, false, draw.order, draw.fights).states, x) == Stock(e.states, x)
  {
    var e := EventsPassed(g, year, draw.events, draw.losses, draw.disasters);
    var wars := Candidates(e.states, e.names, e.globalPollution, |e.states|);
    CandidatesExactly(e.states, e.names, e.globalPollution, |e.states|);
  }
}
