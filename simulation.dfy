// The simulation's objects, updated in place: each country, the shared
// ecosystem and the world that holds them. Every method is proved against
// the value-level rules of the other modules: its postcondition gives the
// new state of the objects it changes as a rule applied to their old state.

module Simulation {
  import opened Basics
  import opened Learning
  import opened Countries
  import opened Ecology
  import opened Events
  import opened Warfare
  import opened Economy
  import opened Turn
  import opened Rounds

  /** The states of a sequence of countries, in order. */
  function StatesOf(cs: seq<Country>): (r: seq<CountryState>)
    reads cs
    ensures |r| == |cs|
    ensures forall i :: 0 <= i < |cs| ==> r[i] == cs[i].data
  {
    if |cs| == 0 then [] else StatesOf(cs[..|cs| - 1]) + [cs[|cs| - 1].data]
  }

  /** The names of a sequence of countries, in order. */
  function NamesOf(cs: seq<Country>): (r: seq<string>)
    ensures |r| == |cs|
    ensures forall i :: 0 <= i < |cs| ==> r[i] == cs[i].name
  {
    seq(|cs|, i requires 0 <= i < |cs| => cs[i].name)
  }

  /** The pollution of each of a sequence of countries, in order. */
  function PollutionsOf(cs: seq<Country>): (r: seq<real>)
    reads cs
    ensures |r| == |cs|
    ensures forall i :: 0 <= i < |cs| ==> r[i] == cs[i].data.pollution
  {
    if |cs| == 0 then [] else PollutionsOf(cs[..|cs| - 1]) + [cs[|cs| - 1].data.pollution]
  }

  /** Different positions hold different countries, with different names
      and different agents. */
  predicate Distinct(cs: seq<Country>)
  {
    forall i, j :: 0 <= i < |cs| && 0 <= j < |cs| && i != j ==>
      cs[i] != cs[j] && cs[i].name != cs[j].name && cs[i].agent != cs[j].agent
  }

  /** Every country of the sequence keeps its invariant. */
  ghost predicate AllValid(cs: seq<Country>)
    reads cs
  {
    forall i :: 0 <= i < |cs| ==> cs[i].Valid()
  }

  /** The countries hold the given states, position by position. */
  ghost predicate Holds(cs: seq<Country>, st: seq<CountryState>)
    reads cs
    decreases |cs|
  {
    && |cs| == |st|
    && (|cs| > 0 ==> cs[|cs| - 1].data == st[|st| - 1] && Holds(cs[..|cs| - 1], st[..|st| - 1]))
  }

  /** Holds, read position by position. */
  lemma {:induction false} HoldsAt(cs: seq<Country>, st: seq<CountryState>)
    requires Holds(cs, st)
    ensures |cs| == |st|
    ensures forall k :: 0 <= k < |cs| ==> cs[k].data == st[k]
    decreases |cs|
  {
    if |cs| > 0 {
      HoldsAt(cs[..|cs| - 1], st[..|st| - 1]);
      forall k | 0 <= k < |cs|
        ensures cs[k].data == st[k]
      {
        if k < |cs| - 1 {
          assert cs[..|cs| - 1][k] == cs[k] && st[..|st| - 1][k] == st[k];
        }
      }
    }
  }

  /** Holds, established position by position. */
  lemma {:induction false} HoldsFrom(cs: seq<Country>, st: seq<CountryState>)
    requires |cs| == |st|
    requires forall k :: 0 <= k < |cs| ==> cs[k].data == st[k]
    ensures Holds(cs, st)
    decreases |cs|
  {
    if |cs| > 0 {
      var cs', st' := cs[..|cs| - 1], st[..|st| - 1];
      forall k | 0 <= k < |cs'|
        ensures cs'[k].data == st'[k]
      {
        assert cs'[k] == cs[k] && st'[k] == st[k];
      }
      HoldsFrom(cs', st');
    }
  }

  /** Countries holding valid states keep their invariants, and back. */
  lemma HoldsValid(cs: seq<Country>, st: seq<CountryState>)
    requires Holds(cs, st)
    ensures AllValid(cs) <==> ValidStates(st)
  {
    HoldsAt(cs, st);
  }

  /** The states a sequence of countries holds. */
  lemma {:induction false} HoldsStates(cs: seq<Country>)
    ensures Holds(cs, StatesOf(cs))
  {
    HoldsFrom(cs, StatesOf(cs));
  }

  /** Every country's agent keeps its invariant. */
  ghost predicate AgentsValid(cs: seq<Country>)
    reads set c | c in cs :: c.agent
  {
    forall i :: 0 <= i < |cs| ==> cs[i].agent.Valid()
  }

  /** An agent's tables, as a value. */
  function MindOf(a: Agent): (m: Mind)
    reads a
    ensures a.Valid() <==> MindOk(m)
  {
    Mind(a.investQ, a.agreeQ, a.warQ)
  }

  /** The countries' agents hold the given tables, position by position. */
  ghost predicate MindsHold(cs: seq<Country>, ms: seq<Mind>)
    reads set c | c in cs :: c.agent
    decreases |cs|
  {
    && |cs| == |ms|
    && (|cs| > 0 ==> MindOf(cs[|cs| - 1].agent) == ms[|ms| - 1] && MindsHold(cs[..|cs| - 1], ms[..|ms| - 1]))
  }

  /** MindsHold, read position by position. */
  lemma {:induction false} MindsAt(cs: seq<Country>, ms: seq<Mind>)
    requires MindsHold(cs, ms)
    ensures |cs| == |ms|
    ensures forall k :: 0 <= k < |cs| ==> MindOf(cs[k].agent) == ms[k]
    decreases |cs|
  {
    if |cs| > 0 {
      MindsAt(cs[..|cs| - 1], ms[..|ms| - 1]);
      forall k | 0 <= k < |cs|
        ensures MindOf(cs[k].agent) == ms[k]
      {
        if k < |cs| - 1 {
          assert cs[..|cs| - 1][k] == cs[k] && ms[..|ms| - 1][k] == ms[k];
        }
      }
    }
  }

  /** MindsHold, established position by position. */
  lemma {:induction false} MindsFrom(cs: seq<Country>, ms: seq<Mind>)
    requires |cs| == |ms|
    requires forall k :: 0 <= k < |cs| ==> MindOf(cs[k].agent) == ms[k]
    ensures MindsHold(cs, ms)
    decreases |cs|
  {
    if |cs| > 0 {
      var cs', ms' := cs[..|cs| - 1], ms[..|ms| - 1];
      forall k | 0 <= k < |cs'|
        ensures MindOf(cs'[k].agent) == ms'[k]
      {
        assert cs'[k] == cs[k] && ms'[k] == ms[k];
      }
      MindsFrom(cs', ms');
    }
  }

  /** The tables the countries' agents hold, in order. */
  function MindsOf(cs: seq<Country>): (r: seq<Mind>)
    reads set c | c in cs :: c.agent
    ensures |r| == |cs|
    ensures forall i :: 0 <= i < |cs| ==> r[i] == MindOf(cs[i].agent)
  {
    seq(|cs|, i reads set c | c in cs :: c.agent requires 0 <= i < |cs| => MindOf(cs[i].agent))
  }

  /** The positions 0..n-1. */
  function Everyone(n: nat): (r: set<nat>)
    ensures forall k :: k in r <==> 0 <= k < n
  {
    if n == 0 then {} else Everyone(n - 1) + {n - 1}
  }

  /** Different positions hold different countries, no agent is a country,
      and neither a country nor an agent is the ecosystem. */
  predicate Separate(cs: seq<Country>, eco: Ecosystem)
  {
    && Distinct(cs)
    && forall k :: 0 <= k < |cs| ==>
         && cs[k] as object != eco && cs[k].agent as object != eco
         && forall j :: 0 <= j < |cs| ==> cs[k].agent as object != cs[j]
  }

  /** Every position of `cs` outside `moved` holds g's state, with no
      rebellion on record, and every agent outside `taught` g's tables. Its
      frame leaves out the countries in `moved` and the agents in `taught`,
      so a step on those keeps it. */
  ghost predicate Others(cs: seq<Country>, moved: set<nat>, taught: set<nat>, g: Globe)
    reads set k | 0 <= k < |cs| && k !in moved :: cs[k]
    reads set k | 0 <= k < |cs| && k !in taught :: cs[k].agent
  {
    && |cs| == |g.states| && |cs| == |g.minds|
    && (forall k :: 0 <= k < |cs| && k !in moved ==> cs[k].data == g.states[k] && !g.states[k].hasRebelled)
    && (forall k :: 0 <= k < |cs| && k !in taught ==> MindOf(cs[k].agent) == g.minds[k])
  }

  /** Others with every position moved: only the agents' tables are g's. */
  lemma MindsOthers(cs: seq<Country>, g: Globe)
    requires |cs| == |g.states| && |cs| == |g.minds|
    requires forall k :: 0 <= k < |cs| ==> MindOf(cs[k].agent) == g.minds[k]
    ensures Others(cs, Everyone(|cs|), {}, g)
  {
  }

  class Country {
    const name: string
    const agent: Agent
    /** The country's mutable attributes (population, money, happiness,
        production, technology, education, military power, pollution,
        infrastructure, rebellion risk, ideology, government, agreement,
        resources, investments, tension scores, year, rebellion flag), held
        as one record and updated in place. */
    var data: CountryState

    /** The bounds hold, and between turns no rebellion is on record. */
    ghost predicate Valid()
      reads this
    {
      Sound(data) && !data.hasRebelled
    }

    /** A new country with the drawn population, government, ideology,
        money, military power, technology, education and pollution. */
    constructor (name: string, agent: Agent, population: int, government: Government,
                 ideology: int, money: int, militaryPower: int, techLevel: int,
                 educationLevel: int, pollution: int)
      requires 10000000 <= population <= 80000000
      requires government == Right ==> 20 <= ideology <= 60
      requires government == Left ==> -60 <= ideology <= -20
      requires 100000000 <= money <= 1000000000
      requires 50 <= militaryPower <= 300
      requires 1 <= techLevel <= 5 && 1 <= educationLevel <= 5
      requires 10 <= pollution <= 20
      ensures this.name == name && this.agent == agent
      ensures data == CountryState(population, money, 70.0, 100.0, techLevel, educationLevel,
                                   militaryPower, pollution as real, 50.0, 0.0, ideology,
                                   government, 0,
                                   map[Oil := 100, Coal := 100, Gas := 100, Forest := 100],
                                   map[Economy := 0, Environment := 0, Infrastructure := 0],
                                   map[], 0, false)
      ensures Valid()
    {
      this.name := name;
      this.agent := agent;
      data := CountryState(
        population := population,
        money := money,
        happiness := 70.0,
        production := 100.0,
        techLevel := techLevel,
        educationLevel := educationLevel,
        militaryPower := militaryPower,
        pollution := pollution as real,
        infrastructure := 50.0,
        rebellionRisk := 0.0,
        ideology := ideology,
        government := government,
        agreement := 0,
        resources := map[Oil := 100, Coal := 100, Gas := 100, Forest := 100],
        investments := map[Economy := 0, Environment := 0, Infrastructure := 0],
        tension := map[],
        year := 0,
        hasRebelled := false);
      new;
      assert data.investments.Keys == DomainSet(Invest);
      forall r: Resource
        ensures r in data.resources && data.resources[r] >= 0
      {
        match r
        case Oil =>
        case Coal =>
        case Gas =>
        case Forest =>
      }
    }

    // ------------------------------------------------------------ diplomacy

    /** `update_tension`. */
    method UpdateTension(partner: Country, change: int)
      modifies this
      ensures data == WithTension(old(data), partner.name, change)
    {
      var current := if partner.name in data.tension then data.tension[partner.name] else 50;
      data := data.(tension := data.tension[partner.name := IntMin(100, IntMax(0, current + change))]);
    }

    /** A decided war's tension change toward the other side: `rise`, then
        -20 after a peace agreement. */
    method Reconcile(other: Country, rise: int, peace: bool)
      requires Valid()
      modifies this
      ensures data == Warfare.Settled(old(data), other.name, rise, peace)
      ensures Valid()
    {
      UpdateTension(other, rise);
      if peace {
        UpdateTension(other, -20);
      }
    }

    // ---------------------------------------------------------------- taxes

    /** `collect_taxes`. */
    method CollectTaxes(eco: Ecosystem)
      requires Valid()
      modifies this
      ensures data == Taxed(old(data), eco.globalPollution)
      ensures Valid()
    {
      var rate := if data.government == Right then 0.05 else 0.10;
      var income := Trunc(data.population as real * rate);
      if data.government == Right && data.infrastructure > 70.0 {
        income := Trunc(income as real * 1.10);
      }
      var loss := if data.government == Right then 2.0 else 5.0;
      if eco.globalPollution > 50.0 {
        loss := loss + 3.0;
      }
      data := data.(money := data.money + income, happiness := Max(0.0, data.happiness - loss));
    }

    // ---------------------------------------------------------------- trade

    /** `trade_resources` with the drawn quantity and acceptance coin: the
        course the trade takes, then its effects on both countries and on the
        buyer's regional pollution entry. */
    method TradeResources(eco: Ecosystem, partner: Country, quantity: int, coin: real)
      returns (plan: TradePlan)
      requires Valid() && partner.Valid() && eco.Valid() && name in eco.regional
      requires partner == this || name != partner.name
      requires 5 <= quantity <= 20
      modifies this, partner, eco
      ensures plan == PlanTrade(old(data), old(partner.data), partner.name, partner == this,
                                old(eco.health), quantity, coin)
      ensures data == BuyerSide(old(data), partner.name, plan)
      ensures partner.data == SellerSide(old(partner.data), name, plan)
      ensures eco.regional == TradeRegional(old(eco.regional), name, plan)
      ensures eco.health == old(eco.health) && eco.globalPollution == old(eco.globalPollution)
      ensures eco.alarmLevel == old(eco.alarmLevel)
      ensures Valid() && partner.Valid() && eco.Valid()
    {
      plan := PlanOffer(eco, partner, quantity, coin);
      match plan
      case NoTrade =>
      case Rejected =>
        Reject(partner);
      case Deal(x, amount) =>
        Exchange(eco, partner, x, amount);
    }

    /** A rejected trade: both tensions rise by 5. */
    method Reject(partner: Country)
      requires Valid() && partner.Valid() && partner != this
      modifies this, partner
      ensures data == BuyerSide(old(data), partner.name, Rejected)
      ensures partner.data == SellerSide(old(partner.data), name, Rejected)
      ensures Valid() && partner.Valid()
    {
      UpdateTension(partner, 5);
      partner.UpdateTension(this, 5);
    }

    /** A trade made: the goods for 1000 per unit, the buyer's pollution and
        regional entry rise by the resource's pollution, and both tensions
        fall by 5. */
    method Exchange(eco: Ecosystem, partner: Country, x: Resource, amount: int)
      requires Valid() && partner.Valid() && partner != this && eco.Valid() && name in eco.regional
      requires 0 <= amount <= partner.data.resources[x]
      modifies this, partner, eco
      ensures data == BuyerSide(old(data), partner.name, Deal(x, amount))
      ensures partner.data == SellerSide(old(partner.data), name, Deal(x, amount))
      ensures eco.regional == TradeRegional(old(eco.regional), name, Deal(x, amount))
      ensures eco.health == old(eco.health) && eco.globalPollution == old(eco.globalPollution)
      ensures eco.alarmLevel == old(eco.alarmLevel)
      ensures Valid() && partner.Valid() && eco.Valid()
    {
      ghost var bought := Bought(data, x, amount);
      ghost var sold := Sold(partner.data, x, amount);
      data := Bought(data, x, amount);
      partner.data := Sold(partner.data, x, amount);
      eco.regional := eco.regional[name := eco.regional[name] + TradePollution(x)];
      UpdateTension(partner, -5);
      partner.UpdateTension(this, -5);
      assert data == WithTension(bought, partner.name, -5);
      assert partner.data == WithTension(sold, name, -5);
    }

    /** The guards of `trade_resources` in their order, each ending the
        trade early, then the acceptance draw. Nothing changes. */
    method PlanOffer(eco: Ecosystem, partner: Country, quantity: int, coin: real)
      returns (plan: TradePlan)
      requires Valid() && partner.Valid() && 5 <= quantity <= 20
      ensures plan == PlanTrade(data, partner.data, partner.name, partner == this,
                                eco.health, quantity, coin)
    {
      if partner == this || eco.health < 30.0 {
        return NoTrade;
      }
      var x := Wanted(data);
      if Target(x) - data.resources[x] <= 0 || partner.data.resources[x] < 10 {
        return NoTrade;
      }
      var amount := IntMin(quantity, partner.data.resources[x]);
      if partner.data.money < amount * 1000 {
        return NoTrade;
      }
      var distance := data.ideology - partner.data.ideology;
      var relation := 100 - (if distance < 0 then -distance else distance);
      var chance := 0.5 + relation as real / 200.0;
      if DiplomaticStatus(data, partner.name) == Friendly {
        chance := chance + 0.1;
      }
      if coin > chance {
        return Rejected;
      }
      return Deal(x, amount);
    }

    // ------------------------------------------------------------ agreement

    /** `join_environment_agreement` with the agent's exploration coin and
        pick, among the world's countries `cs` (this one at `me`), which hold
        `states0`, and their ecosystem. A country that has signed answers yes
        and changes nothing; otherwise the agent decides, the country signs
        or refuses, and the agent learns from the reward. */
    method JoinEnvironmentAgreement(cs: seq<Country>, eco: Ecosystem, ghost me: nat,
                                    ghost states0: seq<CountryState>, coin: real, pick: nat)
      returns (success: bool)
      requires Distinct(cs) && me < |cs| && cs[me] == this
      requires Holds(cs, states0) && ValidStates(states0) && data == states0[me]
      requires agent.Valid() && eco.Valid() && name in eco.regional && pick < 2
      modifies cs, agent, eco
      ensures eco.globalPollution == old(eco.globalPollution) && eco.alarmLevel == old(eco.alarmLevel)
      ensures agent.investQ == old(agent.investQ) && agent.warQ == old(agent.warQ)
      ensures old(data.agreement) == 1 ==>
                && success
                && Holds(cs, states0)
                && eco.health == old(eco.health) && eco.regional == old(eco.regional)
                && agent.agreeQ == old(agent.agreeQ)
      ensures old(data.agreement) != 1 ==>
                var seen := Observe(states0[me], old(eco.health), None);
                var action := Choose(RowOf(old(agent.agreeQ), Agree, seen), Agree, coin, pick);
                && (success <==> action == Join)
                && Holds(cs, Answered(states0, NamesOf(cs), me, action))
                && eco.health == AgreementHealth(old(eco.health), action)
                && eco.regional == AgreementRegional(old(eco.regional), name, action)
                && agent.agreeQ
                   == Updated(Touched(old(agent.agreeQ), Agree, seen), Agree, seen, action,
                              AgreementReward(states0[me], data, old(eco.health), eco.health),
                              Observe(data, eco.health, None))
      ensures AllValid(cs) && agent.Valid() && eco.Valid()
      ensures forall i :: 0 <= i < |cs| && i != me ==> unchanged(cs[i].agent)
      ensures forall i :: 0 <= i < |cs| && i != me ==> MindOf(cs[i].agent) == old(MindOf(cs[i].agent))
    {
      if data.agreement == 1 {
        HoldsValid(cs, states0);
        return true;
      }
      success := Deliberate(cs, eco, me, states0, coin, pick);
    }

    /** The agreement decision of a country that has not signed: the agent
        picks on what it observes, the country signs or refuses, and the
        agent learns from the reward. */
    method Deliberate(cs: seq<Country>, eco: Ecosystem, ghost me: nat,
                      ghost states0: seq<CountryState>, coin: real, pick: nat)
      returns (success: bool)
      requires Distinct(cs) && me < |cs| && cs[me] == this
      requires Holds(cs, states0) && ValidStates(states0) && data == states0[me]
      requires agent.Valid() && eco.Valid() && name in eco.regional && pick < 2
      modifies cs, agent, eco
      ensures eco.globalPollution == old(eco.globalPollution) && eco.alarmLevel == old(eco.alarmLevel)
      ensures agent.investQ == old(agent.investQ) && agent.warQ == old(agent.warQ)
      ensures var seen := Observe(states0[me], old(eco.health), None);
              var action := Choose(RowOf(old(agent.agreeQ), Agree, seen), Agree, coin, pick);
              && (success <==> action == Join)
              && Holds(cs, Answered(states0, NamesOf(cs), me, action))
              && eco.health == AgreementHealth(old(eco.health), action)
              && eco.regional == AgreementRegional(old(eco.regional), name, action)
              && agent.agreeQ
                 == Updated(Touched(old(agent.agreeQ), Agree, seen), Agree, seen, action,
                            AgreementReward(states0[me], data, old(eco.health), eco.health),
                            Observe(data, eco.health, None))
      ensures AllValid(cs) && agent.Valid() && eco.Valid()
      ensures forall i :: 0 <= i < |cs| && i != me ==> unchanged(cs[i].agent)
    {
      var seen := Observe(data, eco.health, None);
      var action := Decide(cs, me, seen, coin, pick);
      success := Sign(cs, eco, me, states0, seen, action);
    }

    /** The country signs or refuses as `action` says, and the agent learns
        from the reward. */
    method Sign(cs: seq<Country>, eco: Ecosystem, ghost me: nat, ghost states0: seq<CountryState>,
                seen: State, action: Action)
      returns (success: bool)
      requires Distinct(cs) && me < |cs| && cs[me] == this
      requires Holds(cs, states0) && ValidStates(states0) && data == states0[me]
      requires agent.Valid() && eco.Valid() && name in eco.regional && action in Domain(Agree)
      modifies cs, agent, eco
      ensures success <==> action == Join
      ensures eco.globalPollution == old(eco.globalPollution) && eco.alarmLevel == old(eco.alarmLevel)
      ensures agent.investQ == old(agent.investQ) && agent.warQ == old(agent.warQ)
      ensures Holds(cs, Answered(states0, NamesOf(cs), me, action))
      ensures eco.health == AgreementHealth(old(eco.health), action)
      ensures eco.regional == AgreementRegional(old(eco.regional), name, action)
      ensures agent.agreeQ
              == Updated(old(agent.agreeQ), Agree, seen, action,
                         AgreementReward(states0[me], data, old(eco.health), eco.health),
                         Observe(data, eco.health, None))
      ensures AllValid(cs) && agent.Valid() && eco.Valid()
      ensures forall i :: 0 <= i < |cs| && i != me ==> unchanged(cs[i].agent)
    {
      var before := data;
      var healthBefore := eco.health;
      Reply(cs, eco, me, states0, action);
      var reward := AgreementReward(before, data, healthBefore, eco.health);
      Learn(cs, me, seen, action, reward, Observe(data, eco.health, None));
      success := action == Join;
    }

    /** The agent chooses to join or refuse; no country and no other agent
        changes. */
    method Decide(ghost cs: seq<Country>, ghost me: nat, seen: State, coin: real, pick: nat)
      returns (action: Action)
      requires Distinct(cs) && me < |cs| && cs[me] == this
      requires agent.Valid() && pick < 2
      modifies agent
      ensures action == Choose(RowOf(old(agent.agreeQ), Agree, seen), Agree, coin, pick)
      ensures action in Domain(Agree)
      ensures agent.agreeQ == Touched(old(agent.agreeQ), Agree, seen)
      ensures agent.investQ == old(agent.investQ) && agent.warQ == old(agent.warQ)
      ensures agent.Valid() && unchanged(cs)
      ensures forall i :: 0 <= i < |cs| && i != me ==> unchanged(cs[i].agent)
    {
      action := agent.ChooseAction(Agree, seen, coin, pick);
    }

    /** The agent learns from the agreement decision; no country and no
        other agent changes. */
    method Learn(ghost cs: seq<Country>, ghost me: nat, seen: State, action: Action, reward: real,
                 next: State)
      requires Distinct(cs) && me < |cs| && cs[me] == this
      requires agent.Valid() && action in Domain(Agree)
      modifies agent
      ensures agent.agreeQ == Updated(old(agent.agreeQ), Agree, seen, action, reward, next)
      ensures agent.investQ == old(agent.investQ) && agent.warQ == old(agent.warQ)
      ensures agent.Valid() && unchanged(cs)
      ensures forall i :: 0 <= i < |cs| && i != me ==> unchanged(cs[i].agent)
    {
      agent.Update(Agree, seen, action, reward, next);
    }

    /** The answer to the agreement, on the countries and the ecosystem. */
    method Reply(cs: seq<Country>, eco: Ecosystem, ghost me: nat, ghost states0: seq<CountryState>,
                 action: Action)
      requires Distinct(cs) && me < |cs| && cs[me] == this
      requires Holds(cs, states0) && ValidStates(states0) && data == states0[me]
      requires eco.Valid() && name in eco.regional
      modifies cs, eco
      ensures forall i :: 0 <= i < |cs| ==> unchanged(cs[i].agent)
      ensures Holds(cs, Answered(states0, NamesOf(cs), me, action)) && AllValid(cs)
      ensures eco.health == AgreementHealth(old(eco.health), action)
      ensures eco.regional == AgreementRegional(old(eco.regional), name, action)
      ensures eco.globalPollution == old(eco.globalPollution) && eco.alarmLevel == old(eco.alarmLevel)
      ensures eco.Valid()
    {
      eco.Answered(name, action);
      Answer(cs, me, states0, action);
    }

    /** The countries' side of the answer: signing changes the country and
        then every country that has signed meets it; refusing changes the
        country alone. */
    method Answer(cs: seq<Country>, ghost me: nat, ghost states0: seq<CountryState>, action: Action)
      requires Distinct(cs) && me < |cs| && cs[me] == this
      requires Holds(cs, states0) && ValidStates(states0) && data == states0[me]
      modifies cs
      ensures Holds(cs, Answered(states0, NamesOf(cs), me, action)) && AllValid(cs)
    {
      if action == Join {
        ghost var joined := states0[me := Joined(data)];
        Become(cs, me, states0, Joined(data));
        MeetSignatories(cs, me, joined);
      } else {
        Become(cs, me, states0, Refused(data));
      }
      AnsweredSound(states0, NamesOf(cs), me, action);
      HoldsValid(cs, Answered(states0, NamesOf(cs), me, action));
    }

    /** The country at `me` takes the state `v`; the others keep theirs. */
    method Become(cs: seq<Country>, ghost me: nat, ghost st: seq<CountryState>, v: CountryState)
      requires Distinct(cs) && me < |cs| && cs[me] == this && Holds(cs, st)
      modifies this
      ensures data == v && Holds(cs, st[me := v])
    {
      HoldsAt(cs, st);
      data := v;
      forall k | 0 <= k < |cs|
        ensures cs[k].data == st[me := v][k]
      {
        if k != me {
          assert cs[k] != this;
        }
      }
      HoldsFrom(cs, st[me := v]);
    }

    /** The joiner's loop over the countries: each other country that has
        signed eases tensions with it and shares its ideology. */
    method MeetSignatories(cs: seq<Country>, ghost me: nat, ghost states0: seq<CountryState>)
      requires Distinct(cs) && me < |cs| && cs[me] == this && |states0| == |cs|
      requires Holds(cs, states0)
      modifies cs
      ensures Holds(cs, Alignment(states0, NamesOf(cs), me, |cs|))
    {
      ghost var trail := AlignmentTrail(states0, NamesOf(cs), me);
      for i := 0 to |cs|
        invariant Holds(cs, trail[i])
      {
        MeetAt(cs, me, i, trail[i], trail[i + 1]);
      }
    }

    /** One round of the loop: the i-th country, when it is another one and
        has signed, meets the joiner; tensions -5 both ways, then both take
        the floor of the mean of their ideologies. */
    method MeetAt(cs: seq<Country>, ghost me: nat, i: nat, ghost prev: seq<CountryState>, ghost next: seq<CountryState>)
      requires Distinct(cs) && me < |cs| && cs[me] == this && |prev| == |cs| && i < |cs|
      requires next == if i != me && prev[i].agreement == 1 then AlignStep(prev, NamesOf(cs), me, i) else prev
      requires Holds(cs, prev)
      modifies this, cs[i]
      ensures Holds(cs, next)
    {
      HoldsAt(cs, prev);
      var other := cs[i];
      if other != this && other.data.agreement == 1 {
        var ideology := Averaged(data.ideology, other.data.ideology);
        data := Met(data, other.name, ideology);
        other.data := Met(other.data, name, ideology);
        ghost var step := AlignStep(prev, NamesOf(cs), me, i);
        forall k | 0 <= k < |cs|
          ensures cs[k].data == step[k]
        {
          if k != me && k != i {
            assert cs[k].data == prev[k];
          }
        }
        HoldsFrom(cs, step);
      }
    }

    // ----------------------------------------------------------- investment

    /** `make_investment_decision` with the agent's exploration coin and
        pick. Below 10 million in money nothing happens; otherwise the agent
        picks an area, the country invests in it, and the agent learns from
        the reward. */
    method MakeInvestmentDecision(eco: Ecosystem, coin: real, pick: nat)
      requires Valid() && agent.Valid() && eco.Valid() && name in eco.regional && pick < 3
      modifies this, agent, eco
      ensures eco.alarmLevel == old(eco.alarmLevel)
      ensures agent.agreeQ == old(agent.agreeQ)
      ensures agent.warQ == old(agent.warQ)
      ensures old(data.money) < 10000000 ==>
                && data == old(data)
                && eco.health == old(eco.health)
                && eco.globalPollution == old(eco.globalPollution)
                && eco.regional == old(eco.regional)
                && agent.investQ == old(agent.investQ)
      ensures old(data.money) >= 10000000 ==>
                var seen := Observe(old(data), old(eco.health), None);
                var area := Choose(RowOf(old(agent.Table(Invest)), Invest, seen), Invest, coin, pick);
                && data == Invested(old(data), area, old(eco.health))
                && eco.regional == old(eco.regional)[name :=
                     RegionalAfterInvestment(old(eco.regional)[name], old(data), area, old(eco.health))]
                && eco.health == HealthAfterInvestment(old(data), area, old(eco.health))
                && eco.globalPollution
                   == GlobalAfterInvestment(old(eco.globalPollution), old(data), area, old(eco.health))
                && agent.Table(Invest)
                   == Updated(Touched(old(agent.Table(Invest)), Invest, seen), Invest, seen, area,
                              InvestmentReward(old(data), data, old(eco.health), eco.health),
                              Observe(data, eco.health, None))
      ensures Valid() && agent.Valid() && eco.Valid()
    {
      if data.money < 10000000 {
        return;
      }
      var seen := Observe(data, eco.health, None);
      var area := agent.ChooseAction(Invest, seen, coin, pick);
      InvestAndLearn(eco, seen, area);
    }

    /** The second half of a decision: fund the chosen area, then let the
        agent learn from the reward and the state it leads to. */
    method InvestAndLearn(eco: Ecosystem, seen: State, area: Action)
      requires Valid() && agent.Valid() && eco.Valid() && name in eco.regional
      requires area in DomainSet(Invest)
      modifies this, agent, eco
      ensures eco.alarmLevel == old(eco.alarmLevel)
      ensures agent.agreeQ == old(agent.agreeQ) && agent.warQ == old(agent.warQ)
      ensures data == Invested(old(data), area, old(eco.health))
      ensures eco.regional == old(eco.regional)[name :=
                RegionalAfterInvestment(old(eco.regional)[name], old(data), area, old(eco.health))]
      ensures eco.health == HealthAfterInvestment(old(data), area, old(eco.health))
      ensures eco.globalPollution
              == GlobalAfterInvestment(old(eco.globalPollution), old(data), area, old(eco.health))
      ensures agent.Table(Invest)
              == Updated(old(agent.Table(Invest)), Invest, seen, area,
                         InvestmentReward(old(data), data, old(eco.health), eco.health),
                         Observe(data, eco.health, None))
      ensures Valid() && agent.Valid() && eco.Valid()
    {
      var before := data;
      var healthBefore := eco.health;
      Fund(eco, area);
      var next := Observe(data, eco.health, None);
      var reward := InvestmentReward(before, data, healthBefore, eco.health);
      agent.Update(Invest, seen, area, reward, next);
    }

    /** The investment itself: 5% of the money moves into the area's
        account, the efficiency is read, and the area's effects apply to the
        country and the ecosystem. */
    method Fund(eco: Ecosystem, area: Action)
      requires Valid() && eco.Valid() && name in eco.regional && area in DomainSet(Invest)
      modifies this, eco
      ensures data == Invested(old(data), area, old(eco.health))
      ensures eco.regional == old(eco.regional)[name :=
                RegionalAfterInvestment(old(eco.regional)[name], old(data), area, old(eco.health))]
      ensures eco.health == HealthAfterInvestment(old(data), area, old(eco.health))
      ensures eco.globalPollution
              == GlobalAfterInvestment(old(eco.globalPollution), old(data), area, old(eco.health))
      ensures eco.alarmLevel == old(eco.alarmLevel)
      ensures Valid() && eco.Valid()
    {
      ghost var s0 := data;
      data := Paid(data, area);
      var efficiency := Efficiency(eco.health, data.happiness);
      if area == Economy {
        BoostEconomy(eco, efficiency, s0);
      } else if area == Environment {
        RestoreEnvironment(eco, efficiency, s0);
      } else {
        BuildInfrastructure(eco, efficiency, s0);
      }
    }

    /** An economy investment's effects once `s0` has paid for it:
        production, pollution (the regional entry too), money and fuel
        stocks rise; a left government loses some happiness. */
    method BoostEconomy(eco: Ecosystem, efficiency: real, ghost s0: CountryState)
      requires Sound(s0) && !s0.hasRebelled && eco.Valid() && name in eco.regional
      requires data == Paid(s0, Economy) && efficiency == Efficiency(eco.health, s0.happiness)
      modifies this, eco
      ensures data == Invested(s0, Economy, old(eco.health))
      ensures eco.regional == old(eco.regional)[name :=
                RegionalAfterInvestment(old(eco.regional)[name], s0, Economy, old(eco.health))]
      ensures eco.health == old(eco.health) && eco.globalPollution == old(eco.globalPollution)
      ensures eco.alarmLevel == old(eco.alarmLevel)
      ensures Valid() && eco.Valid()
    {
      assert data.government == s0.government && data.happiness == s0.happiness;
      assert Invested(s0, Economy, eco.health) == EconomyBoost(data, efficiency);
      var added := EconomyPollution(data.government, efficiency);
      data := EconomyBoost(data, efficiency);
      eco.regional := eco.regional[name := eco.regional[name] + added];
    }

    /** An environment investment's effects once `s0` has paid for it:
        pollution falls (the regional entry too), ecosystem health rises and
        global pollution falls, happiness, money and forest rise. */
    method RestoreEnvironment(eco: Ecosystem, efficiency: real, ghost s0: CountryState)
      requires Sound(s0) && !s0.hasRebelled && eco.Valid() && name in eco.regional
      requires data == Paid(s0, Environment) && efficiency == Efficiency(eco.health, s0.happiness)
      modifies this, eco
      ensures data == Invested(s0, Environment, old(eco.health))
      ensures eco.regional == old(eco.regional)[name :=
                RegionalAfterInvestment(old(eco.regional)[name], s0, Environment, old(eco.health))]
      ensures eco.health == HealthAfterInvestment(s0, Environment, old(eco.health))
      ensures eco.globalPollution
              == GlobalAfterInvestment(old(eco.globalPollution), s0, Environment, old(eco.health))
      ensures eco.alarmLevel == old(eco.alarmLevel)
      ensures Valid() && eco.Valid()
    {
      assert data.government == s0.government && data.happiness == s0.happiness;
      assert Invested(s0, Environment, eco.health) == EnvironmentBoost(data, efficiency);
      var g := data.government;
      data := EnvironmentBoost(data, efficiency);
      eco.regional := eco.regional[name := Max(0.0, eco.regional[name] - EnvironmentCut(g, efficiency))];
      eco.health := Min(100.0, eco.health + HealthGain(g, efficiency));
      eco.globalPollution := Max(0.0, eco.globalPollution - 2.0 * efficiency);
    }

    /** An infrastructure investment's effects once `s0` has paid for it:
        infrastructure and happiness rise, rebellion risk falls; the
        ecosystem is untouched. */
    method BuildInfrastructure(eco: Ecosystem, efficiency: real, ghost s0: CountryState)
      requires Sound(s0) && !s0.hasRebelled && eco.Valid() && name in eco.regional
      requires data == Paid(s0, Infrastructure) && efficiency == Efficiency(eco.health, s0.happiness)
      modifies this
      ensures data == Invested(s0, Infrastructure, eco.health)
      ensures Valid()
    {
      data := InfrastructureBoost(data, efficiency);
    }

    // ---------------------------------------------------- phases of a turn

    /** Growth of population, production and money; the year advances. */
    method Grow()
      requires Valid()
      modifies this
      ensures data == Grown(old(data))
      ensures Valid()
    {
      var production := data.production + (data.techLevel * data.educationLevel) as real * 0.1;
      data := data.(year := data.year + 1,
                    population := data.population + Trunc(data.population as real * 0.01),
                    production := production,
                    money := data.money + Trunc(production * 1000.0));
    }

    /** Fuel use above production 100, with its pollution added to the
        country's regional entry too. */
    method ConsumeFuel(eco: Ecosystem)
      requires Valid() && eco.Valid() && name in eco.regional
      modifies this, eco
      ensures data == Burned(old(data))
      ensures eco.regional == Raised(old(eco.regional), name, FuelPollution(old(data)))
      ensures eco.health == old(eco.health)
      ensures eco.globalPollution == old(eco.globalPollution)
      ensures eco.alarmLevel == old(eco.alarmLevel)
      ensures Valid() && eco.Valid()
    {
      if data.production > 100.0 {
        eco.regional := Raised(eco.regional, name, FuelPollution(data));
        data := Burned(data);
      } else {
        assert eco.regional == Raised(eco.regional, name, 0.0);
      }
    }

    /** Shortages of oil, coal and gas. */
    method SufferShortages()
      requires Valid()
      modifies this
      ensures data == Shortages(old(data))
      ensures Valid()
    {
      if data.resources[Oil] == 0 {
        data := NoOil(data);
      }
      if data.resources[Coal] == 0 {
        data := NoCoal(data);
      }
      if data.resources[Gas] == 0 {
        data := NoGas(data);
      }
    }

    /** The forests' effect on happiness, rebellion risk and ecosystem
        health. */
    method TendForests(eco: Ecosystem)
      requires Valid() && eco.Valid()
      modifies this, eco
      ensures data == ForestMood(old(data))
      ensures eco.health == ForestHealth(old(data.resources[Forest]), old(eco.health))
      ensures eco.regional == old(eco.regional)
      ensures eco.globalPollution == old(eco.globalPollution)
      ensures eco.alarmLevel == old(eco.alarmLevel)
      ensures Valid() && eco.Valid()
    {
      if data.resources[Forest] > 70 {
        data := data.(happiness := Min(100.0, data.happiness + 3.0));
        eco.health := Min(100.0, eco.health + 1.0);
      } else if data.resources[Forest] < 30 {
        data := data.(happiness := Max(0.0, data.happiness - 3.0), rebellionRisk := data.rebellionRisk + 0.05);
      }
    }

    /** Regeneration: forest +2, then +3 on every resource under a left
        government, or +2 on oil and coal under a right one. */
    method Regenerate()
      requires Valid()
      modifies this
      ensures data == Regenerated(old(data))
      ensures Valid()
    {
      var stock := data.resources[Forest := data.resources[Forest] + 2];
      ghost var grown := stock;
      if data.government == Left {
        for i := 0 to |ResourceOrder|
          invariant stock == GrownEach(grown, i)
        {
          var x := ResourceOrder[i];
          stock := stock[x := stock[x] + 3];
        }
      } else {
        stock := stock[Oil := stock[Oil] + 2][Coal := stock[Coal] + 2];
      }
      data := data.(resources := stock);
    }

    /** Industry above production 100 adds 3 pollution, to the regional
        entry too. */
    method AddIndustryPollution(eco: Ecosystem)
      requires Valid() && eco.Valid() && name in eco.regional
      modifies this, eco
      ensures data == old(data).(pollution := old(data.pollution) + IndustryPollution(old(data)))
      ensures eco.regional == Raised(old(eco.regional), name, IndustryPollution(old(data)))
      ensures eco.health == old(eco.health)
      ensures eco.globalPollution == old(eco.globalPollution)
      ensures eco.alarmLevel == old(eco.alarmLevel)
      ensures Valid() && eco.Valid()
    {
      if data.production > 100.0 {
        data := data.(pollution := data.pollution + 3.0);
        eco.regional := Raised(eco.regional, name, 3.0);
      } else {
        assert eco.regional == Raised(eco.regional, name, 0.0);
      }
    }

    /** The ecosystem's health feeds back on happiness, rebellion risk and
        money. */
    method FeelEcosystem(health: real)
      requires Valid()
      modifies this
      ensures data == EcoFeedback(old(data), health)
      ensures Valid()
    {
      if health < 30.0 {
        data := data.(happiness := Max(0.0, data.happiness - 5.0), rebellionRisk := data.rebellionRisk + 0.05);
      } else if health > 70.0 {
        var increase := HealthyCheer(data.government);
        data := data.(happiness := Min(100.0, data.happiness + increase),
                      money := Trunc(data.money as real * 1.05));
      }
    }

    /** The sports year, on the drawn coin. */
    method HoldSportsYear(coin: real)
      requires Valid()
      modifies this
      ensures data == SportsYear(old(data), coin)
      ensures Valid()
    {
      if data.year % 4 == 0 && coin < 0.3 {
        data := data.(happiness := Min(100.0, data.happiness + 5.0),
                      rebellionRisk := Max(0.0, data.rebellionRisk - 2.0),
                      production := data.production * 1.1);
      }
    }

    /** Education migration, on the drawn coin. */
    method LoseStudents(coin: real)
      requires Valid()
      modifies this
      ensures data == EducationMigration(old(data), coin)
      ensures Valid()
    {
      if data.educationLevel < 4 && coin < 0.2 {
        var loss := Trunc(data.population as real * 0.01);
        data := data.(population := data.population - loss, happiness := Max(0.0, data.happiness - 2.0));
      }
    }

    /** Tech migration, on the drawn coin and share. */
    method LoseTechWorkers(coin: real, share: real)
      requires Valid() && 0.03 <= share <= 0.07
      modifies this
      ensures data == TechMigration(old(data), coin, share)
      ensures Valid()
    {
      if data.techLevel < 5 && coin < 0.15 {
        var loss := Trunc(data.population as real * share);
        data := data.(population := data.population - loss, happiness := Max(0.0, data.happiness - 5.0));
      }
    }

    /** The phases of `simulate_turn` before taxes, in order. */
    method Upkeep(eco: Ecosystem, d: TurnDraw)
      requires Valid() && eco.Valid() && name in eco.regional && DrawInRange(d)
      modifies this, eco
      ensures data == Turn.Upkeep(old(data), old(eco.health), d)
      ensures eco.health == UpkeepHealth(old(data), old(eco.health))
      ensures eco.regional == Raised(old(eco.regional), name, UpkeepPollution(old(data)))
      ensures eco.globalPollution == old(eco.globalPollution)
      ensures eco.alarmLevel == old(eco.alarmLevel)
      ensures Valid() && eco.Valid()
    {
      Work(eco);
      Live(eco.health, d);
    }

    /** Growth, fuel use, shortages, the forests, regeneration and industry. */
    method Work(eco: Ecosystem)
      requires Valid() && eco.Valid() && name in eco.regional
      modifies this, eco
      ensures data == Worked(old(data))
      ensures eco.health == UpkeepHealth(old(data), old(eco.health))
      ensures eco.regional == Raised(old(eco.regional), name, UpkeepPollution(old(data)))
      ensures eco.globalPollution == old(eco.globalPollution)
      ensures eco.alarmLevel == old(eco.alarmLevel)
      ensures Valid() && eco.Valid()
    {
      ghost var grown := Grown(data);
      Produce(eco);
      Regenerate();
      AddIndustryPollution(eco);
      RaisedTwice(old(eco.regional), name, FuelPollution(grown),
                  IndustryPollution(Regenerated(ForestMood(Shortages(Burned(grown))))));
    }

    /** Growth, fuel use, shortages and the forests. */
    method Produce(eco: Ecosystem)
      requires Valid() && eco.Valid() && name in eco.regional
      modifies this, eco
      ensures data == ForestMood(Shortages(Burned(Grown(old(data)))))
      ensures eco.health == UpkeepHealth(old(data), old(eco.health))
      ensures eco.regional == Raised(old(eco.regional), name, FuelPollution(Grown(old(data))))
      ensures eco.globalPollution == old(eco.globalPollution)
      ensures eco.alarmLevel == old(eco.alarmLevel)
      ensures Valid() && eco.Valid()
    {
      Grow();
      ConsumeFuel(eco);
      SufferShortages();
      TendForests(eco);
    }

    /** The ecosystem's feedback at the given health, the sports year and
        the two migrations. */
    method Live(health: real, d: TurnDraw)
      requires Valid() && DrawInRange(d)
      modifies this
      ensures data == Lived(old(data), health, d)
      ensures Valid()
    {
      FeelEcosystem(health);
      HoldSportsYear(d.sportsCoin);
      LoseStudents(d.educationCoin);
      LoseTechWorkers(d.techCoin, d.techShare);
    }

    // --------------------------------------------------- politics and end

    /** The four-yearly political check. */
    method CheckGovernment()
      requires Valid()
      modifies this
      ensures data == PoliticalCheck(old(data))
      ensures Valid()
    {
      if data.year % 4 == 0 {
        if data.happiness <= 50.0 {
          data := Overthrown(data);
        }
      }
    }

    /** `rebellion`, on the drawn coin and restored happiness. */
    method Rebellion(coin: real, restored: int)
      requires Sound(data) && 30 <= restored <= 40
      modifies this
      ensures data == Turn.Rebellion(old(data), coin, restored)
    {
      data := Uprising(data);
      if coin < 0.25 {
        data := Overthrown(data);
      } else {
        data := data.(happiness := restored as real);
      }
    }

    /** The end of `simulate_turn`: rebellion below happiness 20, happiness
        floored at 0, the rebellion flag cleared. */
    method CloseYear(coin: real, restored: int)
      requires Valid() && 30 <= restored <= 40
      modifies this
      ensures data == YearEnd(old(data), coin, restored)
      ensures data.happiness >= 20.0
      ensures Valid()
    {
      if data.happiness < 20.0 && !data.hasRebelled {
        Rebellion(coin, restored);
      }
      data := data.(happiness := Max(0.0, data.happiness), hasRebelled := false);
    }

    /** `simulate_turn` of this country, the me-th of the world at the
        globe g: the world moves to the globe Turned gives. In a world of
        one country there is no partner to draw: the draw fails and the rest
        of the turn is skipped. */
    method SimulateTurn(w: World, ghost me: nat, d: TurnDraw, ghost g: Globe)
      requires w.At(g) && me < |w.countries| && w.countries[me] == this
      requires TurnFits(d, |w.countries|, me)
      modifies w.countries, agent, w.ecosystem
      ensures w.At(Turned(g, me, d))
      ensures |w.countries| >= 2 ==> data.happiness >= 20.0
    {
      PrepareIn(w, me, d, g);
      if |w.countries| < 2 {
        return;
      }
      DealIn(w, me, d, Prepared(g, me, d));
    }

    /** The turn after the taxes, within the world. */
    method DealIn(w: World, ghost me: nat, d: TurnDraw, ghost g: Globe)
      requires w.At(g) && me < |w.countries| && w.countries[me] == this
      requires 2 <= |w.countries| && TurnFits(d, |w.countries|, me)
      modifies w.countries, agent, w.ecosystem
      ensures w.At(Dealt(g, me, d))
      ensures data.happiness >= 20.0
    {
      TradeIn(w, me, d.partner, d.tradeQuantity, d.tradeCoin, g);
      ghost var g1 := Traded(g, me, d.partner, d.tradeQuantity, d.tradeCoin);
      AgreeIn(w, me, d.agreeCoin, d.agreePick, g1);
      ghost var g2 := Pledged(g1, me, d.agreeCoin, d.agreePick);
      InvestIn(w, me, d.investCoin, d.investPick, g2);
      ghost var g3 := Financed(g2, me, d.investCoin, d.investPick);
      ConcludeIn(w, me, d.rebellionCoin, d.restoredHappiness, g3);
    }

    /** Upkeep and taxes, within the world. */
    method PrepareIn(w: World, ghost me: nat, d: TurnDraw, ghost g: Globe)
      requires w.At(g) && me < |w.countries| && w.countries[me] == this && DrawInRange(d)
      modifies this, w.ecosystem
      ensures w.At(Prepared(g, me, d))
    {
      w.Leave(g, {me}, {});
      PrepareKept(w, d, g, me);
      w.RejoinOne(g, me, false, Prepared(g, me, d));
    }

    /** Upkeep and taxes; every other country and every agent keeps what
        it holds. */
    method PrepareKept(w: World, d: TurnDraw, ghost g: Globe, ghost me: nat)
      requires me < |w.countries| && w.countries[me] == this && DrawInRange(d)
      requires Others(w.countries, {me}, {}, g) && Separate(w.countries, w.ecosystem)
      requires Valid() && w.ecosystem.Valid() && name in w.ecosystem.regional
      modifies this, w.ecosystem
      ensures Others(w.countries, {me}, {}, g)
      ensures data == Taxed(Turn.Upkeep(old(data), old(w.ecosystem.health), d), old(w.ecosystem.globalPollution))
      ensures w.ecosystem.health == UpkeepHealth(old(data), old(w.ecosystem.health))
      ensures w.ecosystem.regional == Raised(old(w.ecosystem.regional), name, UpkeepPollution(old(data)))
      ensures w.ecosystem.globalPollution == old(w.ecosystem.globalPollution)
      ensures w.ecosystem.alarmLevel == old(w.ecosystem.alarmLevel)
      ensures Valid() && w.ecosystem.Valid()
    {
      Upkeep(w.ecosystem, d);
      CollectTaxes(w.ecosystem);
    }

    /** The trade with the p-th country, within the world. */
    method TradeIn(w: World, ghost me: nat, p: nat, quantity: int, coin: real, ghost g: Globe)
      requires w.At(g) && me < |w.countries| && w.countries[me] == this
      requires p < |w.countries| && p != me && 5 <= quantity <= 20
      modifies this, w.countries[p], w.ecosystem
      ensures w.At(Traded(g, me, p, quantity, coin))
    {
      w.Leave(g, {me, p}, {});
      var plan := TradeKept(w, p, quantity, coin, g, me);
      w.RejoinTwo(g, me, p, false, Traded(g, me, p, quantity, coin));
    }

    /** The trade with the p-th country; every other country and every
        agent keeps what it holds. */
    method TradeKept(w: World, p: nat, quantity: int, coin: real, ghost g: Globe, ghost me: nat)
      returns (plan: TradePlan)
      requires me < |w.countries| && w.countries[me] == this && p < |w.countries| && p != me
      requires Others(w.countries, {me, p}, {}, g) && Separate(w.countries, w.ecosystem)
      requires Valid() && w.countries[p].Valid() && w.ecosystem.Valid() && name in w.ecosystem.regional
      requires 5 <= quantity <= 20
      modifies this, w.countries[p], w.ecosystem
      ensures Others(w.countries, {me, p}, {}, g)
      ensures plan == PlanTrade(old(data), old(w.countries[p].data), w.countries[p].name, false,
                                old(w.ecosystem.health), quantity, coin)
      ensures data == BuyerSide(old(data), w.countries[p].name, plan)
      ensures w.countries[p].data == SellerSide(old(w.countries[p].data), name, plan)
      ensures w.ecosystem.regional == TradeRegional(old(w.ecosystem.regional), name, plan)
      ensures w.ecosystem.health == old(w.ecosystem.health)
      ensures w.ecosystem.globalPollution == old(w.ecosystem.globalPollution)
      ensures w.ecosystem.alarmLevel == old(w.ecosystem.alarmLevel)
      ensures Valid() && w.countries[p].Valid() && w.ecosystem.Valid()
    {
      plan := TradeResources(w.ecosystem, w.countries[p], quantity, coin);
    }

    /** The agreement decision, within the world. */
    method AgreeIn(w: World, ghost me: nat, coin: real, pick: nat, ghost g: Globe)
      requires w.At(g) && me < |w.countries| && w.countries[me] == this && pick < 2
      modifies w.countries, agent, w.ecosystem
      ensures w.At(Pledged(g, me, coin, pick))
    {
      w.Leave(g, Everyone(|w.countries|), {me});
      HoldsValid(w.countries, g.states);
      var signed := AgreeKept(w, coin, pick, g, me);
      w.Pledge(g, me, Pledged(g, me, coin, pick));
    }

    /** `join_environment_agreement` among the world's countries; every
        other agent keeps its tables. */
    method AgreeKept(w: World, coin: real, pick: nat, ghost g: Globe, ghost me: nat) returns (success: bool)
      requires me < |w.countries| && w.countries[me] == this && pick < 2
      requires Others(w.countries, Everyone(|w.countries|), {me}, g) && Separate(w.countries, w.ecosystem)
      requires Holds(w.countries, g.states) && ValidStates(g.states) && data == g.states[me]
      requires agent.Valid() && w.ecosystem.Valid() && name in w.ecosystem.regional
      modifies w.countries, agent, w.ecosystem
      ensures Others(w.countries, Everyone(|w.countries|), {me}, g)
      ensures w.ecosystem.globalPollution == old(w.ecosystem.globalPollution)
      ensures w.ecosystem.alarmLevel == old(w.ecosystem.alarmLevel)
      ensures agent.investQ == old(agent.investQ) && agent.warQ == old(agent.warQ)
      ensures g.states[me].agreement == 1 ==>
                && Holds(w.countries, g.states)
                && w.ecosystem.health == old(w.ecosystem.health)
                && w.ecosystem.regional == old(w.ecosystem.regional)
                && agent.agreeQ == old(agent.agreeQ)
      ensures g.states[me].agreement != 1 ==>
                var seen := Observe(g.states[me], old(w.ecosystem.health), None);
                var action := Choose(RowOf(old(agent.agreeQ), Agree, seen), Agree, coin, pick);
                var after := Answered(g.states, NamesOf(w.countries), me, action)[me];
                && Holds(w.countries, Answered(g.states, NamesOf(w.countries), me, action))
                && w.ecosystem.health == AgreementHealth(old(w.ecosystem.health), action)
                && w.ecosystem.regional == AgreementRegional(old(w.ecosystem.regional), name, action)
                && agent.agreeQ
                   == Updated(Touched(old(agent.agreeQ), Agree, seen), Agree, seen, action,
                              AgreementReward(g.states[me], after, old(w.ecosystem.health), w.ecosystem.health),
                              Observe(after, w.ecosystem.health, None))
      ensures AllValid(w.countries) && agent.Valid() && w.ecosystem.Valid()
    {
      success := JoinEnvironmentAgreement(w.countries, w.ecosystem, me, g.states, coin, pick);
      if g.states[me].agreement != 1 {
        ghost var seen := Observe(g.states[me], old(w.ecosystem.health), None);
        ghost var action := Choose(RowOf(old(agent.agreeQ), Agree, seen), Agree, coin, pick);
        HoldsAt(w.countries, Answered(g.states, NamesOf(w.countries), me, action));
      }
    }

    /** The investment decision, within the world. */
    method InvestIn(w: World, ghost me: nat, coin: real, pick: nat, ghost g: Globe)
      requires w.At(g) && me < |w.countries| && w.countries[me] == this && pick < 3
      modifies this, agent, w.ecosystem
      ensures w.At(Financed(g, me, coin, pick))
    {
      w.Leave(g, {me}, {me});
      InvestKept(w, coin, pick, g, me);
      w.RejoinOne(g, me, true, Financed(g, me, coin, pick));
    }

    /** `make_investment_decision`; every other country and agent keeps
        what it holds. */
    method InvestKept(w: World, coin: real, pick: nat, ghost g: Globe, ghost me: nat)
      requires me < |w.countries| && w.countries[me] == this && pick < 3
      requires Others(w.countries, {me}, {me}, g) && Separate(w.countries, w.ecosystem)
      requires Valid() && agent.Valid() && w.ecosystem.Valid() && name in w.ecosystem.regional
      modifies this, agent, w.ecosystem
      ensures Others(w.countries, {me}, {me}, g)
      ensures w.ecosystem.alarmLevel == old(w.ecosystem.alarmLevel)
      ensures agent.agreeQ == old(agent.agreeQ) && agent.warQ == old(agent.warQ)
      ensures old(data.money) < 10000000 ==>
                && data == old(data)
                && w.ecosystem.health == old(w.ecosystem.health)
                && w.ecosystem.globalPollution == old(w.ecosystem.globalPollution)
                && w.ecosystem.regional == old(w.ecosystem.regional)
                && agent.investQ == old(agent.investQ)
      ensures old(data.money) >= 10000000 ==>
                var seen := Observe(old(data), old(w.ecosystem.health), None);
                var area := Choose(RowOf(old(agent.Table(Invest)), Invest, seen), Invest, coin, pick);
                && data == Invested(old(data), area, old(w.ecosystem.health))
                && w.ecosystem.regional == old(w.ecosystem.regional)[name :=
                     RegionalAfterInvestment(old(w.ecosystem.regional)[name], old(data), area,
                                             old(w.ecosystem.health))]
                && w.ecosystem.health == HealthAfterInvestment(old(data), area, old(w.ecosystem.health))
                && w.ecosystem.globalPollution
                   == GlobalAfterInvestment(old(w.ecosystem.globalPollution), old(data), area,
                                            old(w.ecosystem.health))
                && agent.Table(Invest)
                   == Updated(Touched(old(agent.Table(Invest)), Invest, seen), Invest, seen, area,
                              InvestmentReward(old(data), data, old(w.ecosystem.health), w.ecosystem.health),
                              Observe(data, w.ecosystem.health, None))
      ensures Valid() && agent.Valid() && w.ecosystem.Valid()
    {
      MakeInvestmentDecision(w.ecosystem, coin, pick);
    }

    /** The political check and the end of the year, within the world. */
    method ConcludeIn(w: World, ghost me: nat, coin: real, restored: int, ghost g: Globe)
      requires w.At(g) && me < |w.countries| && w.countries[me] == this && 30 <= restored <= 40
      modifies this
      ensures w.At(Concluded(g, me, coin, restored))
      ensures data.happiness >= 20.0
    {
      w.Leave(g, {me}, {});
      ConcludeKept(w, coin, restored, g, me);
      w.RejoinOne(g, me, false, Concluded(g, me, coin, restored));
    }

    /** The political check and the end of the year; every other country
        and every agent keeps what it holds. */
    method ConcludeKept(w: World, coin: real, restored: int, ghost g: Globe, ghost me: nat)
      requires me < |w.countries| && w.countries[me] == this && 30 <= restored <= 40
      requires Others(w.countries, {me}, {}, g) && Separate(w.countries, w.ecosystem) && Valid()
      modifies this
      ensures Others(w.countries, {me}, {}, g)
      ensures data == YearEnd(PoliticalCheck(old(data)), coin, restored)
      ensures data.happiness >= 20.0 && Valid()
    {
      CheckGovernment();
      CloseYear(coin, restored);
    }

    // ------------------------------------------------ what befalls a country

    /** The regional-pollution penalty `update_pollution` applies. */
    method SufferRegionalPollution(regional: real)
      requires Valid()
      modifies this
      ensures data == RegionalPenalty(old(data), regional)
      ensures Valid()
    {
      if regional > 50.0 {
        data := data.(happiness := Max(0.0, data.happiness - 5.0),
                      resources := data.resources[Forest := IntMax(0, data.resources[Forest] - 10)],
                      rebellionRisk := data.rebellionRisk + 0.05);
      }
    }

    /** Disease. */
    method SufferDisease()
      requires Valid()
      modifies this
      ensures data == Disease(old(data))
      ensures Valid()
    {
      var m := Severity(data.infrastructure);
      data := data.(population := Trunc(data.population as real * (1.0 - 0.05 * m)),
                    happiness := Max(0.0, data.happiness - 10.0 * m),
                    rebellionRisk := data.rebellionRisk + 0.05 * m);
    }

    /** An earthquake. */
    method SufferEarthquake()
      requires Valid()
      modifies this
      ensures data == Earthquake(old(data))
      ensures Valid()
    {
      var m := Severity(data.infrastructure);
      data := data.(population := IntMax(0, data.population - Trunc(5000.0 * m)),
                    production := Max(0.0, data.production * (1.0 - 0.2 * m)),
                    happiness := Max(0.0, data.happiness - 5.0 * m));
    }

    /** A flood. */
    method SufferFlood()
      requires Valid()
      modifies this
      ensures data == Flood(old(data))
      ensures Valid()
    {
      var m := Severity(data.infrastructure);
      data := data.(resources := data.resources[Forest := IntMax(0, data.resources[Forest] - Trunc(20.0 * m))],
                    money := Trunc(data.money as real * (1.0 - 0.1 * m)),
                    happiness := Max(0.0, data.happiness - 5.0 * m));
    }

    /** One global event, with this country's drawn meteor losses. */
    method SufferEvent(e: GlobalEvent, losses: map<Resource, int>)
      requires Valid() && MeteorLosses(losses)
      modifies this
      ensures data == Struck(e, old(data), losses)
      ensures Valid()
    {
      match e
      case Pandemic =>
        data := Sickened(data);
      case Meteor =>
        var stock := data.resources;
        ghost var stock0 := stock;
        for i := 0 to |ResourceOrder|
          invariant stock == Battered(stock0, losses, i)
        {
          var x := ResourceOrder[i];
          stock := stock[x := IntMax(0, stock[x] - losses[x])];
        }
        data := MeteorStruck(data, stock);
      case EconomicCrash =>
        data := Crashed(data);
      case Blackout =>
        data := BlackedOut(data);
    }

    /** The winner's side of a decided war, taking the loser's spoils in
        `resources` order; the loser's side is applied to `loser`. */
    method Conquer(loser: Country)
      requires Valid() && loser.Valid() && loser != this
      modifies this, loser
      ensures data == Victor(old(data), old(loser.data))
      ensures loser.data == Vanquished(old(loser.data))
      ensures Valid() && loser.Valid()
    {
      var mine, theirs := data.resources, loser.data.resources;
      ghost var mine0, theirs0 := mine, theirs;
      for i := 0 to |ResourceOrder|
        invariant mine == Enriched(mine0, theirs0, i)
        invariant theirs == Plundered(theirs0, i)
        invariant data == old(data) && loser.data == old(loser.data)
      {
        var x := ResourceOrder[i];
        NotYetPlundered(theirs0, i);
        var loss := Spoils(theirs[x]);
        theirs := theirs[x := IntMax(0, theirs[x] - loss)];
        mine := mine[x := mine[x] + loss];
      }
      loser.data := Defeat(loser.data, theirs);
      data := Triumph(data, mine);
    }

    /** This country wins a war against `loser`: it conquers the loser, the
        ecosystem is scarred, and both tensions settle, by 10 toward the
        loser and by 30 toward the winner, with -20 each after a peace. */
    method Prevail(loser: Country, eco: Ecosystem, peace: bool)
      requires Valid() && loser.Valid() && loser != this && eco.Valid()
      requires name in eco.regional && loser.name in eco.regional
      modifies this, loser, eco
      ensures data == Warfare.Settled(Victor(old(data), old(loser.data)), loser.name, 10, peace)
      ensures loser.data == Warfare.Settled(Vanquished(old(loser.data)), name, 30, peace)
      ensures eco.globalPollution == old(eco.globalPollution) + 2.0
      ensures eco.regional == WarRegional(old(eco.regional), name, loser.name)
      ensures eco.health == WarHealth(old(eco.health))
      ensures eco.alarmLevel == old(eco.alarmLevel)
      ensures Valid() && loser.Valid() && eco.Valid()
    {
      Conquer(loser);
      eco.Scar(name, loser.name);
      Reconcile(loser, 10, peace);
      loser.Reconcile(this, 30, peace);
    }

    /** One global event strikes this country, the me-th of `cs`, after it
        struck the countries before it. */
    method Endure(cs: seq<Country>, me: nat, e: GlobalEvent, ghost states0: seq<CountryState>,
                  losses: seq<map<Resource, int>>)
      requires Striking(cs, e, states0, losses, me) && me < |cs| && cs[me] == this
      modifies this
      ensures Striking(cs, e, states0, losses, me + 1)
    {
      ghost var st := StruckFirst(e, states0, losses, me);
      StruckFirstStep(e, states0, losses, me);
      HoldsAt(cs, st);
      SufferEvent(e, losses[me]);
      ghost var next := StruckFirst(e, states0, losses, me + 1);
      forall i | 0 <= i < |cs|
        ensures cs[i].data == next[i]
      {
        if i != me {
          assert cs[i] != this;
        }
      }
      HoldsFrom(cs, next);
      ValidAfter(st, me, next[me]);
    }
  }

  class Ecosystem {
    const countries: seq<Country>
    var globalPollution: real
    var regional: map<string, real>
    var health: real
    var alarmLevel: int

    /** Pollution is never negative, health lies within 0..100, the alarm
        within 0..3, and every country has a regional entry. */
    ghost predicate Valid()
      reads this
    {
      && |countries| > 0
      && globalPollution >= 0.0
      && 0.0 <= health <= 100.0
      && 0 <= alarmLevel <= 3
      && (forall i :: 0 <= i < |countries| ==> countries[i].name in regional)
    }

    /** The ecosystem of a list of countries: global pollution is their mean
        pollution, each regional entry the country's own, health 60, no
        alarm. */
    constructor (countries: seq<Country>)
      requires |countries| > 0 && Distinct(countries) && AllValid(countries)
      ensures this.countries == countries
      ensures globalPollution == Mean(old(PollutionsOf(countries)))
      ensures forall i :: 0 <= i < |countries| ==>
                countries[i].name in regional && regional[countries[i].name] == old(countries[i].data.pollution)
      ensures health == 60.0 && alarmLevel == 0
      ensures Valid()
    {
      var p := PollutionsOf(countries);
      var total := 0.0;
      var entries: map<string, real> := map[];
      for i := 0 to |countries|
        invariant total == Total(p[..i])
        invariant forall k :: 0 <= k < i ==> countries[k].name in entries
        invariant forall k :: 0 <= k < i ==> entries[countries[k].name] == p[k]
      {
        assert p[..i + 1][..i] == p[..i];
        total := total + countries[i].data.pollution;
        entries := entries[countries[i].name := countries[i].data.pollution];
      }
      assert p[..|countries|] == p;
      this.countries := countries;
      globalPollution := total / |countries| as real;
      regional := entries;
      health := 60.0;
      alarmLevel := 0;
    }

    /** `update_pollution`: global pollution becomes the mean of the
        countries' pollution, the regional record is rebuilt with each
        country's own pollution plus a tenth of everyone else's, the regional
        penalty strikes every country above 50, and health decays by a fifth
        of the new global pollution. */
    method UpdatePollution(ghost states0: seq<CountryState>)
      requires Valid() && Distinct(countries)
      requires Holds(countries, states0) && ValidStates(states0)
      modifies this, countries
      ensures var p := Pollutions(states0);
              && globalPollution == Mean(p)
              && regional == RegionalEntries(NamesOf(countries), p, |p|)
              && health == HealthAfter(old(health), Mean(p))
      ensures alarmLevel == old(alarmLevel)
      ensures Holds(countries, Penalised(states0, |states0|))
      ensures ValidStates(Penalised(states0, |states0|))
      ensures Valid()
    {
      Apart();
      var mean := MeanPollution(states0);
      var entries := Regionalise(states0);
      UpdateKeepsBounds(states0, NamesOf(countries));
      Record(mean, entries);
    }

    /** The ecosystem's own part of `update_pollution`: the new global
        pollution and regional record, and health decayed by a fifth of the
        global pollution. */
    method Record(mean: real, entries: map<string, real>)
      requires Valid() && mean >= 0.0
      requires forall i :: 0 <= i < |countries| ==> countries[i].name in entries
      modifies this
      ensures globalPollution == mean && regional == entries
      ensures health == HealthAfter(old(health), mean)
      ensures alarmLevel == old(alarmLevel)
      ensures Valid()
    {
      globalPollution := mean;
      regional := entries;
      health := HealthAfter(health, globalPollution);
    }

    /** The loop of `update_pollution` over the countries: the regional
        record it builds, and the penalty striking each country above 50. */
    method Regionalise(ghost states0: seq<CountryState>) returns (entries: map<string, real>)
      requires |countries| > 0 && Distinct(countries) && Holds(countries, states0) && ValidStates(states0)
      modifies countries
      ensures entries == RegionalEntries(NamesOf(countries), Pollutions(states0), |states0|)
      ensures Holds(countries, Penalised(states0, |states0|)) && ValidStates(Penalised(states0, |states0|))
    {
      entries := map[];
      PenalisedStep(states0, 0);
      for i := 0 to |countries|
        invariant Regionalised(states0, i, entries)
      {
        entries := PolluteAt(i, states0, entries);
      }
    }

    /** A decided war's toll on the ecosystem: global pollution +2, the
        winner's and the loser's regional entries +12, health -15 (never
        below 0). */
    method Scar(winner: string, loser: string)
      requires Valid() && winner in regional && loser in regional
      modifies this
      ensures globalPollution == old(globalPollution) + 2.0
      ensures regional == WarRegional(old(regional), winner, loser)
      ensures health == WarHealth(old(health))
      ensures alarmLevel == old(alarmLevel)
      ensures Valid()
    {
      globalPollution := globalPollution + 2.0;
      regional := WarRegional(regional, winner, loser);
      health := WarHealth(health);
    }

    /** A country's regional entry rises by what a global event adds. */
    method Raise(name: string, amount: real)
      requires Valid()
      modifies this
      ensures regional == Raised(old(regional), name, amount)
      ensures globalPollution == old(globalPollution) && health == old(health)
      ensures alarmLevel == old(alarmLevel)
      ensures Valid()
    {
      regional := Raised(regional, name, amount);
    }

    /** The ecosystem's three steps after the year's events: it updates
        pollution, sounds the alarm and triggers disasters. */
    method Respond(d: DisasterDraw, ghost states0: seq<CountryState>)
      requires Valid() && Distinct(countries) && d.quakeTarget < |countries|
      requires Holds(countries, states0) && ValidStates(states0)
      modifies this, countries
      ensures Valid() && AllValid(countries)
      ensures Responded(states0, old(health), old(alarmLevel), d)
    {
      Apart();
      UpdatePollution(states0);
      SoundAlarm();
      TriggerDisasters(d, Penalised(states0, |states0|));
    }

    /** The ecosystem after its three steps on the countries' states
        `states0`, from the given health and alarm: global pollution is their
        mean pollution, each regional entry the country's regional
        pollution, health and alarm follow the mean, and the countries hold
        their penalised states after the disasters. */
    ghost predicate Responded(states0: seq<CountryState>, health0: real, alarm0: int, d: DisasterDraw)
      reads this, countries
    {
      var p := Pollutions(states0);
      && Valid() && ValidStates(states0) && |states0| == |countries| && d.quakeTarget < |countries|
      && globalPollution == Mean(p)
      && regional == RegionalEntries(NamesOf(countries), p, |p|)
      && health == HealthAfter(health0, Mean(p))
      && alarmLevel == RaisedAlarm(alarm0, Mean(p))
      && Holds(countries, Disasters(Penalised(states0, |states0|), NamesOf(countries), regional, alarmLevel, d))
    }

    /** The ecosystem is none of its countries. */
    lemma Apart()
      ensures forall c :: c in countries ==> c as object != this as object
    {
    }

    /** One step of `update_pollution`'s loop: the i-th country's regional
        pollution, and its penalty. */
    method PolluteAt(i: nat, ghost states0: seq<CountryState>, entries: map<string, real>)
      returns (entries': map<string, real>)
      requires Regionalised(states0, i, entries) && i < |countries|
      modifies countries[i]
      ensures Regionalised(states0, i + 1, entries')
    {
      ghost var st := Penalised(states0, i);
      PenalisedStep(states0, i);
      var amount := RegionalPollution(i, st);
      Penalise(i, amount, st);
      entries' := entries[countries[i].name := amount];
    }

    /** The first i countries of `update_pollution`'s loop are done: they
        hold their penalised states, and `entries` their regional pollution. */
    ghost predicate Regionalised(states0: seq<CountryState>, i: nat, entries: map<string, real>)
      reads countries
    {
      && Distinct(countries) && |states0| == |countries| && ValidStates(states0) && i <= |states0|
      && Holds(countries, Penalised(states0, i)) && ValidStates(Penalised(states0, i))
      && entries == RegionalEntries(NamesOf(countries), Pollutions(states0), i)
    }

    /** The mean pollution of the countries, which hold `st`. */
    method MeanPollution(ghost st: seq<CountryState>) returns (m: real)
      requires |countries| > 0 && Holds(countries, st)
      ensures m == Mean(Pollutions(st))
    {
      HoldsAt(countries, st);
      ghost var p := Pollutions(st);
      var total := 0.0;
      for i := 0 to |countries|
        invariant total == Total(p[..i])
      {
        assert p[..i + 1][..i] == p[..i];
        total := total + countries[i].data.pollution;
      }
      assert p[..|countries|] == p;
      m := total / |countries| as real;
    }

    /** The regional pollution of the i-th country: its own pollution plus a
        tenth of that of every other country. */
    method RegionalPollution(i: nat, ghost st: seq<CountryState>) returns (amount: real)
      requires Distinct(countries) && i < |countries| && Holds(countries, st)
      ensures amount == Regional(Pollutions(st), i)
    {
      HoldsAt(countries, st);
      ghost var p := Pollutions(st);
      var country := countries[i];
      var share := 0.0;
      for j := 0 to |countries|
        invariant share == NeighbourShare(p[..j], i)
      {
        assert p[..j + 1][..j] == p[..j];
        if countries[j] != country {
          share := share + countries[j].data.pollution * 0.1;
        }
      }
      assert p[..|countries|] == p;
      amount := country.data.pollution + share;
    }

    /** The regional penalty strikes the k-th country. */
    method Penalise(k: nat, amount: real, ghost st: seq<CountryState>)
      requires Distinct(countries) && k < |countries|
      requires Holds(countries, st) && ValidStates(st)
      modifies countries[k]
      ensures Holds(countries, st[k := RegionalPenalty(st[k], amount)])
      ensures ValidStates(st[k := RegionalPenalty(st[k], amount)])
    {
      HoldsAt(countries, st);
      countries[k].SufferRegionalPollution(amount);
      ghost var next := st[k := RegionalPenalty(st[k], amount)];
      forall i | 0 <= i < |countries|
        ensures countries[i].data == next[i]
      {
        if i != k {
          assert countries[i] != countries[k];
        }
      }
      HoldsFrom(countries, next);
      ValidAfter(st, k, next[k]);
    }

    /** `sound_alarm`: the first threshold global pollution exceeds above the
        current level raises the alarm to that level, and the search stops. */
    method SoundAlarm()
      requires Valid()
      modifies this
      ensures alarmLevel == RaisedAlarm(old(alarmLevel), globalPollution)
      ensures globalPollution == old(globalPollution) && regional == old(regional)
      ensures health == old(health)
      ensures Valid()
    {
      AlarmRatchet(alarmLevel, globalPollution);
      var i := 1;
      while i <= 3
        invariant 1 <= i <= 4
        invariant alarmLevel == old(alarmLevel)
        invariant AlarmSearch(alarmLevel, globalPollution, i) == RaisedAlarm(old(alarmLevel), globalPollution)
        decreases 4 - i
      {
        if globalPollution > Thresholds[i - 1] && alarmLevel < i {
          alarmLevel := i;
          return;
        }
        i := i + 1;
      }
    }

    /** The ecosystem's side of a country's answer to the agreement: health
        +5 (at most 100) when it signs, its regional entry +5 when it
        refuses. */
    method Answered(name: string, action: Action)
      requires Valid()
      modifies this
      ensures health == AgreementHealth(old(health), action)
      ensures regional == AgreementRegional(old(regional), name, action)
      ensures globalPollution == old(globalPollution) && alarmLevel == old(alarmLevel)
      ensures Valid()
    {
      health := AgreementHealth(health, action);
      regional := AgreementRegional(regional, name, action);
    }

    /** `trigger_disasters` with the drawn coins and earthquake target: the
        countries, holding `states0` before, hold the states the disaster
        rules give. */
    method TriggerDisasters(d: DisasterDraw, ghost states0: seq<CountryState>)
      requires Valid() && Distinct(countries) && d.quakeTarget < |countries|
      requires Holds(countries, states0) && ValidStates(states0)
      modifies countries
      ensures Holds(countries, Disasters(states0, NamesOf(countries), regional, alarmLevel, d))
      ensures AllValid(countries)
    {
      Apart();
      var names := NamesOf(countries);
      Plague(d.diseaseCoin, states0);
      ghost var s1 := DiseaseStep(states0, names, regional, alarmLevel, d.diseaseCoin);
      Quake(d.quakeCoin, d.quakeTarget, s1);
      ghost var s2 := QuakeStep(s1, alarmLevel, d.quakeCoin, d.quakeTarget);
      ghost var s3 := FloodStep(s2, names, regional, alarmLevel, d.floodCoin);
      assert s3 == Disasters(states0, names, regional, alarmLevel, d);
      Deluge(d.floodCoin, s2);
      HoldsValid(countries, s3);
    }

    /** The countries hold the states `st`, which are valid. */
    ghost predicate Carry(st: seq<CountryState>)
      reads this, countries
    {
      Valid() && Distinct(countries) && Holds(countries, st) && ValidStates(st)
    }

    /** The disease phase of `trigger_disasters`. */
    method Plague(coin: real, ghost st: seq<CountryState>)
      requires Carry(st)
      modifies countries
      ensures Carry(DiseaseStep(st, NamesOf(countries), regional, alarmLevel, coin))
      ensures unchanged(this)
    {
      Apart();
      if alarmLevel >= 1 || coin < 0.1 {
        Sicken(ArgMax(regional, NamesOf(countries)), st);
      }
    }

    /** The earthquake phase of `trigger_disasters`. */
    method Quake(coin: real, target: nat, ghost st: seq<CountryState>)
      requires Carry(st) && target < |countries|
      modifies countries
      ensures Carry(QuakeStep(st, alarmLevel, coin, target))
      ensures unchanged(this)
    {
      Apart();
      if alarmLevel >= 2 || coin < 0.05 {
        Shake(target, st);
      }
    }

    /** The flood phase of `trigger_disasters`: the loop over its targets. */
    method Deluge(coin: real, ghost st: seq<CountryState>)
      requires Carry(st)
      modifies countries
      ensures Carry(FloodStep(st, NamesOf(countries), regional, alarmLevel, coin))
      ensures unchanged(this)
    {
      Apart();
      if alarmLevel >= 3 || coin < 0.02 {
        var targets := FloodTargets(regional, NamesOf(countries));
        for k := 0 to |targets|
          invariant Carry(FloodFirst(st, targets, k))
          invariant unchanged(this)
        {
          Drown(targets[k], FloodFirst(st, targets, k));
        }
      }
    }

    /** Disease strikes the k-th country. */
    method Sicken(k: nat, ghost st: seq<CountryState>)
      requires Carry(st) && k < |countries|
      modifies countries[k]
      ensures Carry(st[k := Disease(st[k])])
    {
      HoldsAt(countries, st);
      countries[k].SufferDisease();
      ghost var next := st[k := Disease(st[k])];
      forall i | 0 <= i < |countries|
        ensures countries[i].data == next[i]
      {
        if i != k {
          assert countries[i] != countries[k];
        }
      }
      HoldsFrom(countries, next);
      ValidAfter(st, k, next[k]);
    }

    /** An earthquake strikes the k-th country. */
    method Shake(k: nat, ghost st: seq<CountryState>)
      requires Carry(st) && k < |countries|
      modifies countries[k]
      ensures Carry(st[k := Earthquake(st[k])])
    {
      HoldsAt(countries, st);
      countries[k].SufferEarthquake();
      ghost var next := st[k := Earthquake(st[k])];
      forall i | 0 <= i < |countries|
        ensures countries[i].data == next[i]
      {
        if i != k {
          assert countries[i] != countries[k];
        }
      }
      HoldsFrom(countries, next);
      ValidAfter(st, k, next[k]);
    }

    /** A flood strikes the k-th country. */
    method Drown(k: nat, ghost st: seq<CountryState>)
      requires Carry(st) && k < |countries|
      modifies countries[k]
      ensures Carry(FloodAt(st, k))
      ensures unchanged(this)
    {
      HoldsAt(countries, st);
      countries[k].SufferFlood();
      ghost var next := FloodAt(st, k);
      forall i | 0 <= i < |countries|
        ensures countries[i].data == next[i]
      {
        if i != k {
          assert countries[i] != countries[k];
        }
      }
      HoldsFrom(countries, next);
      ValidAfter(st, k, next[k]);
    }
  }

  /** The event has struck the first i countries of `cs`, which hold the
      states it left and are valid. */
  ghost predicate Striking(cs: seq<Country>, e: GlobalEvent, states0: seq<CountryState>,
                           losses: seq<map<Resource, int>>, i: nat)
    reads cs
  {
    && Distinct(cs) && |states0| == |cs| && |losses| == |cs| && i <= |cs|
    && ValidStates(states0) && AllMeteorLosses(losses)
    && Holds(cs, StruckFirst(e, states0, losses, i)) && ValidStates(StruckFirst(e, states0, losses, i))
  }

  class World {
    const countries: seq<Country>
    const ecosystem: Ecosystem
    var eventsDone: map<int, bool>

    /** The ecosystem watches the same countries; countries, names and agents
        are distinct; every country and agent keeps its invariant; the
        global-events record covers the years 1..20. */
    ghost predicate Valid()
      reads this, ecosystem, countries, (set c | c in countries :: c.agent)
    {
      && ecosystem.countries == countries
      && ecosystem.Valid()
      && Distinct(countries)
      && AllValid(countries)
      && AgentsValid(countries)
      && (forall y :: y in eventsDone <==> 1 <= y <= 20)
    }

    /** The world as a value: the countries' names, states and agents'
        tables, the ecosystem's fields and the record of done years. */
    ghost function Now(): Globe
      reads this, ecosystem, countries, (set c | c in countries :: c.agent)
    {
      Globe(NamesOf(countries), StatesOf(countries), MindsOf(countries), ecosystem.health,
            ecosystem.globalPollution, ecosystem.regional, ecosystem.alarmLevel, eventsDone)
    }

    /** The world keeps its invariant and is the globe g. */
    ghost predicate At(g: Globe)
      reads this, ecosystem, countries, (set c | c in countries :: c.agent)
    {
      && Valid()
      && GlobeOk(g)
      && g.names == NamesOf(countries)
      && Holds(countries, g.states)
      && MindsHold(countries, g.minds)
      && Shows(g)
    }

    /** The ecosystem's fields and the record of done years are g's. */
    ghost predicate Shows(g: Globe)
      reads this, ecosystem
    {
      && ecosystem.health == g.health && ecosystem.globalPollution == g.globalPollution
      && ecosystem.regional == g.regional && ecosystem.alarmLevel == g.alarm
      && eventsDone == g.done
    }

    /** A valid world is the globe Now() describes. */
    lemma Current()
      requires Valid()
      ensures At(Now())
    {
      HoldsStates(countries);
      HoldsValid(countries, StatesOf(countries));
      MindsFrom(countries, MindsOf(countries));
    }

    /** The globe a world is at keeps the bounds, and is read position by
        position. */
    lemma Here(g: Globe)
      requires At(g)
      ensures forall k :: 0 <= k < |countries| ==> countries[k].data == g.states[k]
      ensures forall k :: 0 <= k < |countries| ==> MindOf(countries[k].agent) == g.minds[k]
    {
      HoldsAt(countries, g.states);
      MindsAt(countries, g.minds);
    }

    /** The parts of the invariant only the world's own record holds. */
    ghost predicate Fixed()
      reads this
    {
      && Distinct(countries) && ecosystem.countries == countries
      && (forall y :: y in eventsDone <==> 1 <= y <= 20)
    }

    /** Before a step on the countries in `moved` and the agents in
        `taught`: the world's own part of the invariant, every other
        position as g has it, and every position read one by one. */
    lemma Leave(g: Globe, moved: set<nat>, taught: set<nat>)
      requires At(g)
      ensures Fixed() && Others(countries, moved, taught, g) && Separate(countries, ecosystem)
      ensures forall k :: 0 <= k < |countries| ==> countries[k].data == g.states[k]
      ensures forall k :: 0 <= k < |countries| ==> MindOf(countries[k].agent) == g.minds[k]
    {
      Here(g);
      Apart();
      AgentsApart();
    }

    /** After a step on the countries in `moved` and the agents in `taught`:
        the world is at r when every other position is as g has it and r
        keeps it, the changed countries and agents show r's states and
        tables and keep their invariants, and the ecosystem shows r's
        fields. */
    lemma Rejoin(g: Globe, moved: set<nat>, taught: set<nat>, r: Globe)
      requires Fixed() && Others(countries, moved, taught, g) && ecosystem.Valid()
      requires GlobeOk(r) && r.names == NamesOf(countries) && Shows(r)
      requires |r.states| == |countries| && |r.minds| == |countries|
      requires forall k :: 0 <= k < |countries| && k !in moved ==> r.states[k] == g.states[k]
      requires forall k :: 0 <= k < |countries| && k !in taught ==> r.minds[k] == g.minds[k]
      requires forall k :: 0 <= k < |countries| && k in moved ==>
                 countries[k].data == r.states[k] && countries[k].Valid()
      requires forall k :: 0 <= k < |countries| && k in taught ==> MindOf(countries[k].agent) == r.minds[k]
      ensures At(r)
    {
      HoldsFrom(countries, r.states);
      MindsFrom(countries, r.minds);
    }

    /** After the agreement decision of the me-th country, which may change
        every country but only the me-th agent: the world is at r when the
        countries hold r's states and keep their invariants, the me-th agent
        shows r's tables, every other agent is as g has it and r keeps it,
        and the ecosystem shows r's fields. */
    lemma Pledge(g: Globe, me: nat, r: Globe)
      requires Fixed() && Others(countries, Everyone(|countries|), {me}, g) && ecosystem.Valid()
      requires GlobeOk(r) && r.names == NamesOf(countries) && Shows(r) && me < |countries|
      requires Holds(countries, r.states) && AllValid(countries) && |r.minds| == |countries|
      requires forall k :: 0 <= k < |countries| && k != me ==> r.minds[k] == g.minds[k]
      requires MindOf(countries[me].agent) == r.minds[me]
      ensures At(r)
    {
      MindsFrom(countries, r.minds);
    }

    /** Rejoin after a step on the me-th country alone, and on its agent
        when `learned`. */
    lemma RejoinOne(g: Globe, me: nat, learned: bool, r: Globe)
      requires Fixed() && me < |countries| && ecosystem.Valid()
      requires Others(countries, {me}, if learned then {me} else {}, g)
      requires GlobeOk(r) && r.names == NamesOf(countries) && Shows(r)
      requires r.states == g.states[me := countries[me].data] && countries[me].Valid()
      requires r.minds == if learned then g.minds[me := MindOf(countries[me].agent)] else g.minds
      ensures At(r)
    {
      Rejoin(g, {me}, if learned then {me} else {}, r);
    }

    /** Rejoin after a step on the ai-th agent alone: the world is at r when
        r differs from g only in that agent's tables, which the agent shows. */
    lemma RejoinMind(g: Globe, ai: nat, r: Globe)
      requires Fixed() && ai < |countries| && ecosystem.Valid() && Shows(g) && g.names == NamesOf(countries)
      requires Others(countries, {}, {ai}, g)
      requires GlobeOk(r) && r.names == g.names && r.states == g.states && r.done == g.done
      requires r.health == g.health && r.globalPollution == g.globalPollution
      requires r.regional == g.regional && r.alarm == g.alarm
      requires |r.minds| == |g.minds| && forall k :: 0 <= k < |g.minds| && k != ai ==> r.minds[k] == g.minds[k]
      requires MindOf(countries[ai].agent) == r.minds[ai]
      ensures At(r)
    {
      Rejoin(g, {}, {ai}, r);
    }

    /** Rejoin after the clash of a war: the world is at the globe Clashing
        gives when the two sides and the ecosystem show the clash. */
    lemma RejoinClash(g: Globe, ai: nat, di: nat, seen: State, action: Action, peace: bool)
      requires Fixed() && ai < |countries| && di < |countries| && ai != di && ecosystem.Valid()
      requires GlobeOk(g) && g.names == NamesOf(countries) && Others(countries, {ai, di}, {}, g)
      requires eventsDone == g.done && ecosystem.alarmLevel == g.alarm
      requires countries[ai].Valid() && countries[di].Valid()
      requires var c := Clashed(g.states[ai], g.states[di], g.names[ai], g.names[di], g.health,
                                g.globalPollution, g.regional, seen, action, peace);
               && countries[ai].data == c.attacker && countries[di].data == c.defender
               && ecosystem.health == c.health && ecosystem.globalPollution == c.globalPollution
               && ecosystem.regional == c.regional
      ensures At(Clashing(g, ai, di, seen, action, peace))
    {
      RejoinTwo(g, ai, di, false, Clashing(g, ai, di, seen, action, peace));
    }

    /** Rejoin after a step on the a-th and b-th countries, and on the a-th
        agent when `learned`. */
    lemma RejoinTwo(g: Globe, a: nat, b: nat, learned: bool, r: Globe)
      requires Fixed() && a < |countries| && b < |countries| && a != b && ecosystem.Valid()
      requires Others(countries, {a, b}, if learned then {a} else {}, g)
      requires GlobeOk(r) && r.names == NamesOf(countries) && Shows(r)
      requires r.states == g.states[a := countries[a].data][b := countries[b].data]
      requires countries[a].Valid() && countries[b].Valid()
      requires r.minds == if learned then g.minds[a := MindOf(countries[a].agent)] else g.minds
      ensures At(r)
    {
      Rejoin(g, {a, b}, if learned then {a} else {}, r);
    }

    /** After a step that may change every country but no agent: the
        world is at r when the countries hold r's states and keep their
        invariants, r keeps g's tables, and the ecosystem shows r's fields. */
    lemma RejoinAll(g: Globe, r: Globe)
      requires Fixed() && Others(countries, Everyone(|countries|), {}, g) && ecosystem.Valid()
      requires GlobeOk(r) && r.names == NamesOf(countries) && Shows(r)
      requires Holds(countries, r.states) && AllValid(countries) && r.minds == g.minds
      ensures At(r)
    {
      MindsFrom(countries, r.minds);
    }

    /** The position of a country in the world's list. */
    ghost function IndexOf(c: Country): (i: nat)
      requires c in countries
      ensures i < |countries| && countries[i] == c
    {
      var i :| 0 <= i < |countries| && countries[i] == c; i
    }

    /** The world keeps its invariant when its own record and every country
        outside `changed`, with its agent, are unchanged, and the countries in
        `changed`, their agents and the ecosystem keep theirs. */
    twostate lemma Kept(changed: set<nat>)
      requires old(Valid()) && unchanged(this) && ecosystem.Valid()
      requires forall i :: i in changed && i < |countries| ==> countries[i].Valid() && countries[i].agent.Valid()
      requires forall i :: 0 <= i < |countries| && i !in changed ==>
                 unchanged(countries[i]) && unchanged(countries[i].agent)
      ensures Valid()
    {
    }

    /** The world, its ecosystem and its countries are different objects. */
    lemma Apart()
      ensures forall i :: 0 <= i < |countries| ==>
                countries[i] as object != this as object && countries[i] as object != ecosystem as object
    {
    }

    /** No agent is a country or the ecosystem. */
    lemma AgentsApart()
      ensures forall i, j :: 0 <= i < |countries| && 0 <= j < |countries| ==>
                countries[i].agent as object != countries[j] as object
                && countries[i].agent as object != ecosystem as object
    {
    }

    /** After a country's agreement decision: every country and the
        ecosystem keep their invariants, only that country's agent may have
        changed, and it keeps its own. */
    twostate lemma Agreed(me: nat)
      requires old(Valid()) && unchanged(this) && me < |countries|
      requires ecosystem.Valid() && AllValid(countries) && countries[me].agent.Valid()
      requires forall i :: 0 <= i < |countries| && i != me ==> unchanged(countries[i].agent)
      ensures Valid()
    {
    }

    /** A world of the given countries, with its ecosystem and no year's
        global events done. */
    constructor (countries: seq<Country>)
      requires |countries| > 0 && Distinct(countries) && AllValid(countries)
      requires AgentsValid(countries)
      ensures this.countries == countries && fresh(ecosystem)
      ensures eventsDone == NoneDone()
      ensures Valid()
    {
      this.countries := countries;
      ecosystem := new Ecosystem(countries);
      eventsDone := NoneDone();
    }

    /** Every country and agent keeps its invariant when the world's own
        record and every agent are unchanged and the countries and the
        ecosystem keep theirs. */
    twostate lemma Settled()
      requires old(Valid()) && unchanged(this) && ecosystem.Valid() && AllValid(countries)
      requires forall i :: 0 <= i < |countries| ==> unchanged(countries[i].agent)
      ensures Valid()
    {
    }

    /** One global event striking every country in turn, each with its
        drawn meteor losses; each country's regional entry rises with the
        pollution the event adds. */
    method Strike(e: GlobalEvent, losses: seq<map<Resource, int>>, ghost states0: seq<CountryState>)
      requires Valid() && Holds(countries, states0) && ValidStates(states0)
      requires |losses| == |countries| && AllMeteorLosses(losses)
      modifies ecosystem, countries
      ensures Holds(countries, StrikeAll(e, states0, losses))
      ensures ValidStates(StrikeAll(e, states0, losses))
      ensures ecosystem.regional == RaisedAll(old(ecosystem.regional), NamesOf(countries), EventPollution(e))
      ensures ecosystem.globalPollution == old(ecosystem.globalPollution)
      ensures ecosystem.health == old(ecosystem.health)
      ensures ecosystem.alarmLevel == old(ecosystem.alarmLevel)
      ensures Valid()
    {
      StruckFirstStep(e, states0, losses, |countries|);
      StrikeEach(e, losses, states0);
      AgentsApart();
      HoldsValid(countries, StrikeAll(e, states0, losses));
      Settled();
    }

    /** The loop of one global event over the countries. */
    method StrikeEach(e: GlobalEvent, losses: seq<map<Resource, int>>, ghost states0: seq<CountryState>)
      requires Striking(countries, e, states0, losses, 0) && ecosystem.Valid()
      modifies ecosystem, countries
      ensures Striking(countries, e, states0, losses, |countries|) && ecosystem.Valid()
      ensures ecosystem.regional == RaisedAll(old(ecosystem.regional), NamesOf(countries), EventPollution(e))
      ensures ecosystem.globalPollution == old(ecosystem.globalPollution)
      ensures ecosystem.health == old(ecosystem.health)
      ensures ecosystem.alarmLevel == old(ecosystem.alarmLevel)
    {
      var names := NamesOf(countries);
      ghost var regional0 := ecosystem.regional;
      for i := 0 to |countries|
        invariant Striking(countries, e, states0, losses, i)
        invariant ecosystem.Valid()
        invariant ecosystem.regional == RaisedAll(regional0, names[..i], EventPollution(e))
        invariant ecosystem.globalPollution == old(ecosystem.globalPollution)
        invariant ecosystem.health == old(ecosystem.health)
        invariant ecosystem.alarmLevel == old(ecosystem.alarmLevel)
      {
        StrikeAt(e, losses, states0, i, names, regional0);
      }
      assert names[..|countries|] == names;
    }

    /** One round of the loop: the event strikes the i-th country, and its
        regional pollution rises. */
    method StrikeAt(e: GlobalEvent, losses: seq<map<Resource, int>>, ghost states0: seq<CountryState>,
                    i: nat, names: seq<string>, ghost regional0: map<string, real>)
      requires Striking(countries, e, states0, losses, i) && ecosystem.Valid() && i < |countries|
      requires names == NamesOf(countries)
      requires ecosystem.regional == RaisedAll(regional0, names[..i], EventPollution(e))
      modifies ecosystem, countries[i]
      ensures Striking(countries, e, states0, losses, i + 1) && ecosystem.Valid()
      ensures ecosystem.regional == RaisedAll(regional0, names[..i + 1], EventPollution(e))
      ensures ecosystem.globalPollution == old(ecosystem.globalPollution)
      ensures ecosystem.health == old(ecosystem.health)
      ensures ecosystem.alarmLevel == old(ecosystem.alarmLevel)
    {
      countries[i].Endure(countries, i, e, states0, losses);
      RaisedAllStep(regional0, names, i, EventPollution(e));
      ecosystem.Raise(names[i], EventPollution(e));
    }

    /** The drawn events of a year, each striking every country in turn, in
        their fixed order. */
    method Unleash(draw: EventDraw, losses: seq<map<Resource, int>>, ghost states0: seq<CountryState>)
      requires Valid() && Holds(countries, states0) && ValidStates(states0)
      requires |losses| == |countries| && AllMeteorLosses(losses)
      modifies ecosystem, countries
      ensures Holds(countries, Stricken(states0, draw, losses, |EventOrder|))
      ensures ValidStates(Stricken(states0, draw, losses, |EventOrder|))
      ensures ecosystem.alarmLevel == old(ecosystem.alarmLevel)
      ensures ecosystem.health == old(ecosystem.health)
      ensures Valid()
    {
      ghost var st := states0;
      for k := 0 to |EventOrder|
        invariant Valid() && Holds(countries, st) && ValidStates(st)
        invariant st == Stricken(states0, draw, losses, k)
        invariant ecosystem.alarmLevel == old(ecosystem.alarmLevel)
        invariant ecosystem.health == old(ecosystem.health)
      {
        if draw.Happened(EventOrder[k]) {
          Strike(EventOrder[k], losses, st);
          st := StrikeAll(EventOrder[k], st, losses);
        }
      }
    }

    /** `simulate_global_events`: the world moves to the globe
        EventsPassed gives. A year outside 1..20, or one whose events are
        done, changes nothing; otherwise the year is marked done, the drawn
        events strike every country in turn, and the ecosystem updates
        pollution, sounds the alarm and triggers disasters. */
    method SimulateGlobalEvents(year: int, draw: EventDraw, losses: seq<map<Resource, int>>,
                                disasters: DisasterDraw, ghost g: Globe)
      requires At(g) && |losses| == |countries| && AllMeteorLosses(losses)
      requires disasters.quakeTarget < |countries|
      modifies this, ecosystem, countries
      ensures At(EventsPassed(g, year, draw, losses, disasters))
    {
      if year !in eventsDone || eventsDone[year] {
        return;
      }
      Mark(year, g);
      Unfold(draw, losses, disasters, g.(done := g.done[year := true]));
    }

    /** The year is marked done in the record, and nothing else changes. */
    method Mark(year: int, ghost g: Globe)
      requires At(g) && year in eventsDone
      modifies this
      ensures At(g.(done := g.done[year := true]))
    {
      eventsDone := eventsDone[year := true];
    }

    /** The body of `simulate_global_events` once the year is marked. */
    method Unfold(draw: EventDraw, losses: seq<map<Resource, int>>, disasters: DisasterDraw,
                  ghost g: Globe)
      requires At(g) && |losses| == |countries| && AllMeteorLosses(losses)
      requires disasters.quakeTarget < |countries|
      modifies ecosystem, countries
      ensures At(Befallen(g, draw, losses, disasters))
    {
      Leave(g, Everyone(|countries|), {});
      HoldsValid(countries, g.states);
      UnfoldKept(draw, losses, disasters, g);
      RejoinAll(g, Befallen(g, draw, losses, disasters));
    }

    /** The year's events and the ecosystem's steps after them; every agent
        keeps its tables. */
    method UnfoldKept(draw: EventDraw, losses: seq<map<Resource, int>>, disasters: DisasterDraw,
                      ghost g: Globe)
      requires Valid() && Holds(countries, g.states) && ValidStates(g.states)
      requires Others(countries, Everyone(|countries|), {}, g) && Separate(countries, ecosystem)
      requires |losses| == |countries| && AllMeteorLosses(losses) && disasters.quakeTarget < |countries|
      modifies ecosystem, countries
      ensures Others(countries, Everyone(|countries|), {}, g)
      ensures Valid() && AllValid(countries)
      ensures ecosystem.Responded(Stricken(g.states, draw, losses, |EventOrder|), old(ecosystem.health),
                                  old(ecosystem.alarmLevel), disasters)
    {
      UnleashKept(draw, losses, g);
      AftermathKept(disasters, Stricken(g.states, draw, losses, |EventOrder|), g);
    }

    /** The year's events; every agent keeps its tables. */
    method UnleashKept(draw: EventDraw, losses: seq<map<Resource, int>>, ghost g: Globe)
      requires Valid() && Holds(countries, g.states) && ValidStates(g.states)
      requires Others(countries, Everyone(|countries|), {}, g) && Separate(countries, ecosystem)
      requires |losses| == |countries| && AllMeteorLosses(losses)
      modifies ecosystem, countries
      ensures Others(countries, Everyone(|countries|), {}, g)
      ensures Holds(countries, Stricken(g.states, draw, losses, |EventOrder|))
      ensures ValidStates(Stricken(g.states, draw, losses, |EventOrder|))
      ensures ecosystem.alarmLevel == old(ecosystem.alarmLevel)
      ensures ecosystem.health == old(ecosystem.health)
      ensures Valid()
    {
      Unleash(draw, losses, g.states);
    }

    /** The ecosystem's steps after the year's events; every agent keeps
        its tables. */
    method AftermathKept(disasters: DisasterDraw, ghost struck: seq<CountryState>, ghost g: Globe)
      requires Valid() && Holds(countries, struck) && ValidStates(struck)
      requires Others(countries, Everyone(|countries|), {}, g) && Separate(countries, ecosystem)
      requires disasters.quakeTarget < |countries|
      modifies ecosystem, countries
      ensures Others(countries, Everyone(|countries|), {}, g)
      ensures Valid() && AllValid(countries)
      ensures ecosystem.Responded(struck, old(ecosystem.health), old(ecosystem.alarmLevel), disasters)
    {
      Aftermath(disasters, struck);
      MindsOthers(countries, g);
    }

    /** The ecosystem's steps after the year's events, on the countries'
        states `struck`; every agent keeps its tables. */
    method Aftermath(disasters: DisasterDraw, ghost struck: seq<CountryState>)
      requires Valid() && Holds(countries, struck) && ValidStates(struck)
      requires disasters.quakeTarget < |countries|
      modifies ecosystem, countries
      ensures Valid() && AllValid(countries)
      ensures ecosystem.Responded(struck, old(ecosystem.health), old(ecosystem.alarmLevel), disasters)
      ensures forall k :: 0 <= k < |countries| ==> MindOf(countries[k].agent) == old(MindOf(countries[k].agent))
    {
      AgentsApart();
      ecosystem.Respond(disasters, struck);
      Settled();
    }

    /** The candidates for war in the order of the nested loops of
        `simulate_war`: every ordered pair of distinct countries whose
        effective tension exceeds 70. */
    method PotentialWars() returns (wars: seq<(nat, nat)>)
      requires Distinct(countries)
      ensures wars == Candidates(StatesOf(countries), NamesOf(countries), ecosystem.globalPollution,
                                 |countries|)
      ensures forall p :: p in wars <==>
                AtWar(StatesOf(countries), NamesOf(countries), ecosystem.globalPollution, p)
    {
      ghost var states := StatesOf(countries);
      ghost var names := NamesOf(countries);
      ghost var gp := ecosystem.globalPollution;
      wars := [];
      for i := 0 to |countries|
        invariant wars == Candidates(states, names, gp, i)
      {
        wars := ScanRow(i, wars);
      }
      CandidatesExactly(states, names, gp, |countries|);
    }

    /** The inner loop of `simulate_war` for the i-th country: the pairs
        (i, j) that are candidates, in order of j, join the end of the list
        (gathered as a row, then appended). */
    method ScanRow(i: nat, wars0: seq<(nat, nat)>) returns (wars: seq<(nat, nat)>)
      requires Distinct(countries) && i < |countries|
      requires wars0 == Candidates(StatesOf(countries), NamesOf(countries), ecosystem.globalPollution, i)
      ensures wars == Candidates(StatesOf(countries), NamesOf(countries), ecosystem.globalPollution, i + 1)
    {
      ghost var states := StatesOf(countries);
      ghost var names := NamesOf(countries);
      ghost var gp := ecosystem.globalPollution;
      var row: seq<(nat, nat)> := [];
      for j := 0 to |countries|
        invariant row == RowCandidates(states, names, gp, i, j)
      {
        var atWar := Tense(i, j);
        if atWar {
          var pair: (nat, nat) := (i, j);
          row := row + [pair];
        }
      }
      wars := wars0 + row;
    }

    /** The test of the nested loops of `simulate_war`: two different
        countries, and the i-th one's tension toward the j-th (50 when it
        has none on record), plus 5 when global pollution exceeds 50,
        exceeds 70. */
    method Tense(i: nat, j: nat) returns (atWar: bool)
      requires Distinct(countries) && i < |countries| && j < |countries|
      ensures atWar == AtWar(StatesOf(countries), NamesOf(countries), ecosystem.globalPollution, (i, j))
    {
      var c1 := countries[i];
      var c2 := countries[j];
      atWar := false;
      if c1 != c2 {
        var tension := if c2.name in c1.data.tension then c1.data.tension[c2.name] else 50;
        if ecosystem.globalPollution > 50.0 {
          tension := tension + 5;
        }
        atWar := tension > 70;
      }
    }

    /** One war of `simulate_war`, the ai-th country attacking the di-th:
        the attacker's agent chooses on what it observes, the war is fought
        or not, and the agent learns from it; the world moves from g to the
        globe Fought gives. */
    method Fight(ai: nat, di: nat, f: FightDraw, ghost g: Globe)
      requires At(g) && ai < |countries| && di < |countries| && ai != di && f.pick < 2
      modifies countries[ai], countries[di], countries[ai].agent, ecosystem
      ensures At(Fought(g, ai, di, f))
    {
      var seen, action := ChooseAt(ai, di, f, g);
      ghost var g1 := Chose(g, ai, seen);
      var reward, next := ClashAt(ai, di, seen, action, f.peaceCoin < 0.5, g1);
      LearnAt(ai, seen, action, reward, next, Clashing(g1, ai, di, seen, action, f.peaceCoin < 0.5));
    }

    /** The attacker's agent chooses between attack and peace on what it
        observes of itself and of its tension toward the defender. */
    method ChooseAt(ai: nat, di: nat, f: FightDraw, ghost g: Globe) returns (seen: State, action: Action)
      requires At(g) && ai < |countries| && di < |countries| && f.pick < 2
      modifies countries[ai].agent
      ensures seen == Seen(g.states[ai], g.names[di], g.health)
      ensures action == WarChoice(g.states[ai], g.names[di], g.health, g.minds[ai].warQ, f)
      ensures At(Chose(g, ai, seen))
    {
      Leave(g, {}, {ai});
      seen := Seen(countries[ai].data, countries[di].name, ecosystem.health);
      action := Decide(ai, seen, f, g);
      RejoinMind(g, ai, Chose(g, ai, seen));
    }

    /** The war on the attacker's choice, from the globe g. */
    method ClashAt(ai: nat, di: nat, seen: State, action: Action, peace: bool, ghost g: Globe)
      returns (reward: real, next: State)
      requires At(g) && ai < |countries| && di < |countries| && ai != di
      modifies countries[ai], countries[di], ecosystem
      ensures var c := Clashed(g.states[ai], g.states[di], g.names[ai], g.names[di], g.health,
                               g.globalPollution, g.regional, seen, action, peace);
              reward == c.reward && next == c.next
      ensures At(Clashing(g, ai, di, seen, action, peace))
    {
      Leave(g, {ai, di}, {});
      reward, next := Clash(ai, di, seen, action, peace, g);
      RejoinClash(g, ai, di, seen, action, peace);
    }

    /** The attacker's agent learns from the war, from the globe g. */
    method LearnAt(ai: nat, seen: State, action: Action, reward: real, next: State, ghost g: Globe)
      requires At(g) && ai < |countries| && action in Domain(War)
      modifies countries[ai].agent
      ensures At(Learned(g, ai, seen, action, reward, next))
    {
      Leave(g, {}, {ai});
      Learn(ai, seen, action, reward, next, g);
      RejoinMind(g, ai, Learned(g, ai, seen, action, reward, next));
    }

    /** The war itself, once the attacker has chosen `action` on `seen`. */
    method Clash(ai: nat, di: nat, seen: State, action: Action, peace: bool, ghost g: Globe)
      returns (reward: real, next: State)
      requires Valid() && ai < |countries| && di < |countries| && ai != di
      requires Others(countries, {ai, di}, {}, g) && Separate(countries, ecosystem)
      modifies countries[ai], countries[di], ecosystem
      ensures Others(countries, {ai, di}, {}, g)
      ensures Valid()
      ensures var c := Clashed(old(countries[ai].data), old(countries[di].data), countries[ai].name,
                               countries[di].name, old(ecosystem.health), old(ecosystem.globalPollution),
                               old(ecosystem.regional), seen, action, peace);
              && countries[ai].data == c.attacker && countries[di].data == c.defender
              && ecosystem.health == c.health && ecosystem.globalPollution == c.globalPollution
              && ecosystem.regional == c.regional && reward == c.reward && next == c.next
      ensures ecosystem.alarmLevel == old(ecosystem.alarmLevel)
    {
      var attacker, defender := countries[ai], countries[di];
      reward, next := 1.0, seen;
      if action == Peace {
        return;
      }
      reward := -1.0;
      if CombatScore(attacker.data, 0.15) == CombatScore(defender.data, 0.20) {
        return;
      }
      var before, healthBefore := attacker.data, ecosystem.health;
      var won := Wage(ai, di, peace, g);
      next := Observe(attacker.data, ecosystem.health, Some(TensionToward(attacker.data, defender.name)));
      reward := WarReward(before, attacker.data, healthBefore, ecosystem.health, won);
    }

    /** The attacker's agent chooses between attack and peace. */
    method Decide(ai: nat, seen: State, f: FightDraw, ghost g: Globe) returns (action: Action)
      requires Valid() && ai < |countries| && f.pick < 2
      requires Others(countries, {}, {ai}, g) && Separate(countries, ecosystem)
      modifies countries[ai].agent
      ensures Others(countries, {}, {ai}, g)
      ensures Valid()
      ensures action == Choose(RowOf(old(countries[ai].agent.warQ), War, seen), War, f.coin, f.pick)
      ensures action in Domain(War)
      ensures countries[ai].agent.warQ == Touched(old(countries[ai].agent.warQ), War, seen)
      ensures countries[ai].agent.investQ == old(countries[ai].agent.investQ)
      ensures countries[ai].agent.agreeQ == old(countries[ai].agent.agreeQ)
    {
      AgentsApart();
      action := countries[ai].agent.ChooseAction(War, seen, f.coin, f.pick);
      Agreed(ai);
    }

    /** The attacker's agent learns from the war. */
    method Learn(ai: nat, seen: State, action: Action, reward: real, next: State, ghost g: Globe)
      requires Valid() && ai < |countries| && action in Domain(War)
      requires Others(countries, {}, {ai}, g) && Separate(countries, ecosystem)
      modifies countries[ai].agent
      ensures Others(countries, {}, {ai}, g)
      ensures Valid()
      ensures countries[ai].agent.warQ == Updated(old(countries[ai].agent.warQ), War, seen, action, reward, next)
      ensures countries[ai].agent.investQ == old(countries[ai].agent.investQ)
      ensures countries[ai].agent.agreeQ == old(countries[ai].agent.agreeQ)
    {
      AgentsApart();
      countries[ai].agent.Update(War, seen, action, reward, next);
      Agreed(ai);
    }

    /** A decided war between the ai-th and the di-th country: the higher
        score wins, the winner conquers the loser, the ecosystem is scarred,
        and the tensions settle. */
    method Wage(ai: nat, di: nat, peace: bool, ghost g: Globe) returns (won: bool)
      requires Valid() && ai < |countries| && di < |countries| && ai != di
      requires Battle(countries[ai].data, countries[di].data) != Stalemate
      requires Others(countries, {ai, di}, {}, g)
      modifies countries[ai], countries[di], ecosystem
      ensures Others(countries, {ai, di}, {}, g)
      ensures won == (Battle(old(countries[ai].data), old(countries[di].data)) == AttackerWins)
      ensures (countries[ai].data, countries[di].data)
              == AfterWar(old(countries[ai].data), old(countries[di].data), countries[ai].name,
                          countries[di].name, peace)
      ensures ecosystem.globalPollution == old(ecosystem.globalPollution) + 2.0
      ensures ecosystem.regional
              == if won then WarRegional(old(ecosystem.regional), countries[ai].name, countries[di].name)
                 else WarRegional(old(ecosystem.regional), countries[di].name, countries[ai].name)
      ensures ecosystem.health == WarHealth(old(ecosystem.health))
      ensures ecosystem.alarmLevel == old(ecosystem.alarmLevel)
      ensures Valid()
    {
      Apart();
      AgentsApart();
      var attacker, defender := countries[ai], countries[di];
      won := CombatScore(attacker.data, 0.15) > CombatScore(defender.data, 0.20);
      if won {
        Triumph(ai, di, peace);
      } else {
        Triumph(di, ai, peace);
      }
    }

    /** The wi-th country wins a war against the li-th. */
    method Triumph(wi: nat, li: nat, peace: bool)
      requires Valid() && wi < |countries| && li < |countries| && wi != li
      modifies countries[wi], countries[li], ecosystem
      ensures countries[wi].data
              == Warfare.Settled(Victor(old(countries[wi].data), old(countries[li].data)), countries[li].name, 10, peace)
      ensures countries[li].data == Warfare.Settled(Vanquished(old(countries[li].data)), countries[wi].name, 30, peace)
      ensures ecosystem.globalPollution == old(ecosystem.globalPollution) + 2.0
      ensures ecosystem.regional == WarRegional(old(ecosystem.regional), countries[wi].name, countries[li].name)
      ensures ecosystem.health == WarHealth(old(ecosystem.health))
      ensures ecosystem.alarmLevel == old(ecosystem.alarmLevel)
      ensures Valid()
    {
      Apart();
      AgentsApart();
      countries[wi].Prevail(countries[li], ecosystem, peace);
      Kept({wi, li});
    }

    /** `simulate_war`: the world moves to the globe WarsPassed gives. A
        year outside 1..20, or one whose global events are done, changes
        nothing; otherwise the candidates are shuffled and the first two
        fight. The record of done years is only read. */
    method SimulateWar(year: int, order: seq<nat>, fights: seq<FightDraw>, ghost g: Globe)
      requires At(g) && FightsFit(fights)
      requires year in g.done && !g.done[year] ==>
                 IsShuffle(order, |Candidates(g.states, g.names, g.globalPollution, |g.states|)|)
      modifies ecosystem, countries, (set c | c in countries :: c.agent)
      ensures At(WarsPassed(g, year, order, fights))
    {
      if year !in eventsDone || eventsDone[year] {
        return;
      }
      assert WarsPassed(g, year, order, fights) == Warred(g, order, fights);
      FightWars(order, fights, g);
    }

    /** The wars of a year whose global events are not done: the candidates
        in the order of the nested loops, shuffled, and the first two (or
        fewer) fought. */
    method FightWars(order: seq<nat>, fights: seq<FightDraw>, ghost g: Globe)
      requires At(g) && FightsFit(fights)
      requires IsShuffle(order, |Candidates(g.states, g.names, g.globalPollution, |g.states|)|)
      modifies ecosystem, countries, (set c | c in countries :: c.agent)
      ensures At(Warred(g, order, fights))
    {
      var wars := PotentialWars();
      assert wars == Candidates(g.states, g.names, g.globalPollution, |g.states|) by {
        Here(g);
        assert StatesOf(countries) == g.states;
      }
      assert Paired(wars, |g.states|) by {
        CandidatesExactly(g.states, g.names, g.globalPollution, |g.states|);
      }
      FirstTwoFit(order, fights, |wars|);
      assert Warred(g, order, fights) == FoughtFirst(g, wars, order, fights, IntMin(2, |wars|));
      FightFirst(wars, order, fights, IntMin(2, |wars|), g);
    }

    /** The first n wars of the shuffled candidates, fought in order. */
    method FightFirst(wars: seq<(nat, nat)>, order: seq<nat>, fights: seq<FightDraw>, n: nat,
                      ghost g: Globe)
      requires At(g) && Paired(wars, |g.states|) && n <= |order| && n <= |fights|
      requires forall j :: 0 <= j < n ==> order[j] < |wars| && fights[j].pick < 2
      modifies ecosystem, countries, (set c | c in countries :: c.agent)
      ensures At(FoughtFirst(g, wars, order, fights, n))
    {
      ghost var path := Iterate(g, WarStep(wars, order, fights), n);
      for k := 0 to n
        invariant At(path[k])
      {
        FightNth(wars, order, fights, k, n, g, path);
      }
    }

    /** The k-th of the shuffled candidate wars, from the k-th globe on the
        path to the next. */
    method FightNth(wars: seq<(nat, nat)>, order: seq<nat>, fights: seq<FightDraw>, k: nat, n: nat,
                    ghost g: Globe, ghost path: seq<Globe>)
      requires Paired(wars, |countries|) && k < n <= |order| && n <= |fights|
      requires forall j :: 0 <= j < n ==> order[j] < |wars| && fights[j].pick < 2
      requires path == Iterate(g, WarStep(wars, order, fights), n) && At(path[k])
      modifies ecosystem, countries, (set c | c in countries :: c.agent)
      ensures At(path[k + 1])
    {
      IterateStep(g, WarStep(wars, order, fights), n, k);
      var pair := wars[order[k]];
      assert pair in wars;
      Fight(pair.0, pair.1, fights[k], path[k]);
    }

    /** One year of `simulate_world`: global events, wars, then every
        country's turn in list order; the world moves to the globe
        YearPassed gives. A year outside the record of global events, and a
        turn that finds no trade partner, are logged and the year goes on,
        as the error handlers mean them to. */
    method SimulateYear(year: int, draw: YearDraw, ghost g: Globe)
      requires At(g) && Fits(draw, |countries|)
      modifies this, ecosystem, countries, (set c | c in countries :: c.agent)
      ensures At(YearPassed(g, year, draw))
    {
      ghost var events := EventsPassed(g, year, draw.events, draw.losses, draw.disasters);
      SimulateGlobalEvents(year, draw.events, draw.losses, draw.disasters, g);
      EventsMark(g, year, draw.events, draw.losses, draw.disasters);
      SimulateWar(year, draw.order, draw.fights, events);
      TakeTurns(draw.turns, WarsPassed(events, year, draw.order, draw.fights));
    }

    /** Every country's turn, in list order. */
    method TakeTurns(turns: seq<TurnDraw>, ghost g: Globe)
      requires At(g) && |turns| == |countries|
      requires forall i :: 0 <= i < |turns| ==> TurnFits(turns[i], |countries|, i)
      modifies ecosystem, countries, (set c | c in countries :: c.agent)
      ensures At(TurnsTaken(g, turns, |countries|))
    {
      ghost var path := Iterate(g, TurnStep(turns), |countries|);
      for i := 0 to |countries|
        invariant At(path[i])
      {
        TakeTurn(turns, i, g, path);
      }
    }

    /** The i-th country's turn, after those of the first i. */
    method TakeTurn(turns: seq<TurnDraw>, i: nat, ghost g: Globe, ghost path: seq<Globe>)
      requires i < |turns| == |countries|
      requires forall k :: 0 <= k < |turns| ==> TurnFits(turns[k], |countries|, k)
      requires path == Iterate(g, TurnStep(turns), |countries|) && At(path[i])
      modifies ecosystem, countries, (set c | c in countries :: c.agent)
      ensures At(path[i + 1])
    {
      TurnTaken(g, turns, |countries|, i);
      countries[i].SimulateTurn(this, i, turns[i], path[i]);
    }

    /** `simulate_world` over the given number of years, year k on the k-th
        draw, as the error handlers mean it to run: the world moves to the
        globe Simulated gives. */
    method SimulateWorld(years: nat, draws: seq<YearDraw>, ghost g: Globe)
      requires At(g) && years <= |draws|
      requires forall k :: 0 <= k < |draws| ==> Fits(draws[k], |countries|)
      modifies this, ecosystem, countries, (set c | c in countries :: c.agent)
      ensures At(Simulated(g, years, draws))
    {
      for year := 1 to years + 1
        invariant At(Simulated(g, year - 1, draws))
      {
        ghost var prev := Simulated(g, year - 1, draws);
        assert Simulated(g, year, draws) == YearPassed(prev, year, draws[year - 1]);
        SimulateYear(year, draws[year - 1], prev);
      }
    }
  }
}
