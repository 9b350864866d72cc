// The four global events of a year and what each does to one country.

module Events {
  import opened Basics
  import opened Countries

  datatype GlobalEvent = Pandemic | Meteor | EconomicCrash | Blackout

  /** The events in the order they are applied. */
  const EventOrder: seq<GlobalEvent> := [Pandemic, Meteor, EconomicCrash, Blackout]

  /** Which events a year drew (each is an independent coin in the source). */
  datatype EventDraw = EventDraw(pandemic: bool, meteor: bool, crash: bool, blackout: bool)
  {
    function Happened(e: GlobalEvent): bool
    {
      match e
      case Pandemic => pandemic
      case Meteor => meteor
      case EconomicCrash => crash
      case Blackout => blackout
    }
  }

  /** The pollution an event adds to every country and to its regional
      pollution. */
  function EventPollution(e: GlobalEvent): (p: real)
    ensures p == 2.0 || p == 3.0
  {
    match e
    case Pandemic => 2.0
    case Meteor => 3.0
    case EconomicCrash => 3.0
    case Blackout => 2.0
  }

  /** The meteor's losses for one country: a value in 5..20 per resource. */
  predicate MeteorLosses(losses: map<Resource, int>)
  {
    forall r: Resource :: r in losses && 5 <= losses[r] <= 20
  }

  /** A pandemic: production halves, happiness -10 (not below 0), pollution
      +2, population -2%. */
  function Sickened(s: CountryState): (r: CountryState)
    requires Sound(s)
    ensures Sound(r)
    ensures r == s.(production := r.production, happiness := r.happiness,
                    pollution := s.pollution + 2.0, population := r.population)
    ensures r.happiness <= s.happiness && r.production <= s.production
    ensures r.population <= s.population
  {
    assert s.population as real * 0.98 <= s.population as real;
    s.(production := s.production * 0.5,
       happiness := Max(0.0, s.happiness - 10.0),
       pollution := s.pollution + 2.0,
       population := Trunc(s.population as real * 0.98))
  }

  /** A meteor, once the resources have become `stock`: happiness -5 (not
      below 0), pollution +3, technology -1 (never below 1). */
  function MeteorStruck(s: CountryState, stock: map<Resource, int>): (r: CountryState)
    requires Sound(s) && forall x: Resource :: x in stock && stock[x] >= 0
    ensures Sound(r)
    ensures r == s.(resources := stock, happiness := r.happiness,
                    pollution := s.pollution + 3.0, techLevel := r.techLevel)
    ensures r.happiness <= s.happiness && r.techLevel <= s.techLevel
  {
    s.(resources := stock,
       happiness := Max(0.0, s.happiness - 5.0),
       pollution := s.pollution + 3.0,
       techLevel := IntMax(1, s.techLevel - 1))
  }

  /** An economic crash: money -30%, happiness -10 (not below 0), pollution
      +3. */
  function Crashed(s: CountryState): (r: CountryState)
    requires Sound(s)
    ensures Sound(r)
    ensures r == s.(money := Trunc(s.money as real * 0.7), happiness := r.happiness,
                    pollution := s.pollution + 3.0)
    ensures r.happiness <= s.happiness
  {
    s.(money := Trunc(s.money as real * 0.7),
       happiness := Max(0.0, s.happiness - 10.0),
       pollution := s.pollution + 3.0)
  }

  /** A blackout: technology -1 (never below 1), production -40%, pollution
      +2. */
  function BlackedOut(s: CountryState): (r: CountryState)
    requires Sound(s)
    ensures Sound(r)
    ensures r == s.(techLevel := r.techLevel, production := r.production,
                    pollution := s.pollution + 2.0)
    ensures r.techLevel <= s.techLevel && r.production <= s.production
  {
    s.(techLevel := IntMax(1, s.techLevel - 1),
       production := s.production * 0.6,
       pollution := s.pollution + 2.0)
  }

  /** The stock after the first `i` resources, in key order, have each lost
      their drawn amount, never below 0. */
  function Battered(stock: map<Resource, int>, losses: map<Resource, int>, i: nat): (r: map<Resource, int>)
    requires i <= |ResourceOrder| && MeteorLosses(losses)
    requires forall x: Resource :: x in stock && stock[x] >= 0
    ensures forall x: Resource :: x in r && r[x] >= 0
  {
    if i == 0 then stock
    else
      var p := Battered(stock, losses, i - 1);
      var x := ResourceOrder[i - 1];
      p[x := IntMax(0, p[x] - losses[x])]
  }

  /** Each of the first `i` resources has lost its drawn amount (never below
      0), the others nothing. */
  lemma {:induction false} BatteredAt(stock: map<Resource, int>, losses: map<Resource, int>, i: nat)
    requires i <= |ResourceOrder| && MeteorLosses(losses)
    requires forall x: Resource :: x in stock && stock[x] >= 0
    ensures forall x: Resource ::
              Battered(stock, losses, i)[x] == if Rank(x) < i then IntMax(0, stock[x] - losses[x]) else stock[x]
  {
    if i > 0 {
      BatteredAt(stock, losses, i - 1);
    }
  }

  /** What one event does to one country, each with its own effect above;
      the meteor takes each resource's drawn loss, never below 0. */
  function Struck(e: GlobalEvent, s: CountryState, losses: map<Resource, int>): (r: CountryState)
    requires Sound(s) && MeteorLosses(losses)
    ensures Sound(r)
    ensures r.pollution == s.pollution + EventPollution(e)
    ensures r.happiness <= s.happiness && r.production <= s.production
    ensures r.population <= s.population && r.techLevel <= s.techLevel
    ensures forall x: Resource :: r.resources[x] <= s.resources[x]
    ensures r == s.(population := r.population, production := r.production,
                    happiness := r.happiness, pollution := r.pollution,
                    resources := r.resources, techLevel := r.techLevel, money := r.money)
    ensures e == EconomicCrash ==> r.money == Trunc(s.money as real * 0.7)
    ensures e != EconomicCrash ==> r.money == s.money
    ensures e == Meteor ==>
              forall x: Resource :: r.resources[x] == IntMax(0, s.resources[x] - losses[x])
    ensures e != Meteor ==> r.resources == s.resources
  {
    match e
    case Pandemic => Sickened(s)
    case Meteor =>
      BatteredAt(s.resources, losses, |ResourceOrder|);
      MeteorStruck(s, Battered(s.resources, losses, |ResourceOrder|))
    case EconomicCrash => Crashed(s)
    case Blackout => BlackedOut(s)
  }

  /** Every country's losses are meteor losses. */
  predicate AllMeteorLosses(losses: seq<map<Resource, int>>)
  {
    forall i :: 0 <= i < |losses| ==> MeteorLosses(losses[i])
  }

  /** One event striking every country, each with its own drawn losses. */
  function StrikeAll(e: GlobalEvent, states: seq<CountryState>, losses: seq<map<Resource, int>>)
    : (r: seq<CountryState>)
    requires |losses| == |states| && AllSound(states) && AllMeteorLosses(losses)
    ensures |r| == |states| && AllSound(r)
    ensures forall i :: 0 <= i < |states| ==> r[i] == Struck(e, states[i], losses[i])
  {
    seq(|states|, i requires 0 <= i < |states| => Struck(e, states[i], losses[i]))
  }

  /** The states once the event has struck the first i countries. */
  function StruckFirst(e: GlobalEvent, states: seq<CountryState>, losses: seq<map<Resource, int>>, i: nat)
    : (r: seq<CountryState>)
    requires |losses| == |states| && AllSound(states) && AllMeteorLosses(losses) && i <= |states|
    ensures |r| == |states| && AllSound(r)
    ensures forall k :: 0 <= k < |states| ==>
              r[k] == if k < i then Struck(e, states[k], losses[k]) else states[k]
  {
    seq(|states|, k requires 0 <= k < |states| =>
      if k < i then Struck(e, states[k], losses[k]) else states[k])
  }

  /** StruckFirst starts from the states, strikes one more country per step,
      and ends with every country struck. */
  lemma StruckFirstStep(e: GlobalEvent, states: seq<CountryState>, losses: seq<map<Resource, int>>, i: nat)
    requires |losses| == |states| && AllSound(states) && AllMeteorLosses(losses) && i <= |states|
    ensures StruckFirst(e, states, losses, 0) == states
    ensures StruckFirst(e, states, losses, |states|) == StrikeAll(e, states, losses)
    ensures i < |states| ==>
              StruckFirst(e, states, losses, i + 1)
              == StruckFirst(e, states, losses, i)[i := Struck(e, states[i], losses[i])]
  {
    assert StruckFirst(e, states, losses, 0) == states;
    assert StruckFirst(e, states, losses, |states|) == StrikeAll(e, states, losses);
  }

  /** The countries after the first k events of the year, in their order,
      each striking every country when it was drawn. */
  function Stricken(states: seq<CountryState>, draw: EventDraw, losses: seq<map<Resource, int>>, k: nat)
    : (r: seq<CountryState>)
    requires k <= |EventOrder| && |losses| == |states| && AllSound(states) && AllMeteorLosses(losses)
    ensures |r| == |states| && AllSound(r)
  {
    if k == 0 then states
    else
      var before := Stricken(states, draw, losses, k - 1);
      if draw.Happened(EventOrder[k - 1]) then StrikeAll(EventOrder[k - 1], before, losses) else before
  }

  /** The pollution the first k drawn events add to every country. */
  function DrawnPollution(draw: EventDraw, k: nat): (p: real)
    requires k <= |EventOrder|
    ensures 0.0 <= p <= 3.0 * k as real
  {
    if k == 0 then 0.0
    else DrawnPollution(draw, k - 1) + (if draw.Happened(EventOrder[k - 1]) then EventPollution(EventOrder[k - 1]) else 0.0)
  }

  /** The year's events add the same pollution to every country, never make
      anyone happier, more populous or more productive, and leave the
      rebellion flags alone. */
  lemma {:induction false} StrickenEffect(states: seq<CountryState>, draw: EventDraw,
                                          losses: seq<map<Resource, int>>, k: nat)
    requires k <= |EventOrder| && |losses| == |states| && AllSound(states) && AllMeteorLosses(losses)
    ensures forall i :: 0 <= i < |states| ==>
              var r := Stricken(states, draw, losses, k)[i];
              && r.pollution == states[i].pollution + DrawnPollution(draw, k)
              && r.happiness <= states[i].happiness
              && r.population <= states[i].population
              && r.production <= states[i].production
              && r.hasRebelled == states[i].hasRebelled
  {
    if k > 0 {
      StrickenEffect(states, draw, losses, k - 1);
    }
  }
}
