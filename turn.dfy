// The phases of a country's yearly turn as values: growth, fuel use,
// shortages, forests, regeneration, the ecosystem's feedback, the sports
// year, migration, the four-yearly political check, rebellion and the end of
// the year.

module Turn {
  import opened Basics
  import opened Countries

  /** The random outcomes one turn draws: the three coins of the sports year
      and the migrations, the share of population tech migration takes, the
      trade partner (an index into the world's countries), quantity and
      acceptance coin, the two agents' exploration coins and random picks,
      and the rebellion's coin and restored happiness. */
  datatype TurnDraw = TurnDraw(
    sportsCoin: real,
    educationCoin: real,
    techCoin: real,
    techShare: real,
    partner: nat,
    tradeQuantity: int,
    tradeCoin: real,
    agreeCoin: real,
    agreePick: nat,
    investCoin: real,
    investPick: nat,
    rebellionCoin: real,
    restoredHappiness: int)

  /** The ranges the source's random calls draw from. */
  predicate DrawInRange(d: TurnDraw)
  {
    && 0.03 <= d.techShare <= 0.07
    && 5 <= d.tradeQuantity <= 20
    && d.agreePick < 2
    && d.investPick < 3
    && 30 <= d.restoredHappiness <= 40
  }

  /** Growth: the year advances, population +1%, production +tech * education
      * 0.1, money + int(production * 1000) of the new production. */
  function Grown(s: CountryState): (r: CountryState)
    requires Sound(s)
    ensures Sound(r)
    ensures r == s.(year := s.year + 1, population := r.population,
                    production := r.production, money := r.money)
    ensures r.population >= s.population
    ensures r.production >= s.production + 0.1
    ensures r.money >= s.money + 100
  {
    var production := s.production + (s.techLevel * s.educationLevel) as real * 0.1;
    s.(year := s.year + 1,
       population := s.population + Trunc(s.population as real * 0.01),
       production := production,
       money := s.money + Trunc(production * 1000.0))
  }

  /** The fuel a country burns: at most 5 oil, 3 coal and 2 gas, and never
      more than it holds, when production exceeds 100; nothing otherwise. */
  function Burn(s: CountryState, x: Resource): (used: int)
    requires Sound(s)
    ensures 0 <= used <= s.resources[x]
    ensures s.production <= 100.0 || x == Forest ==> used == 0
  {
    if s.production <= 100.0 then 0
    else
      match x
      case Oil => IntMin(5, s.resources[Oil])
      case Coal => IntMin(3, s.resources[Coal])
      case Gas => IntMin(2, s.resources[Gas])
      case Forest => 0
  }

  /** The pollution burnt fuel adds: 1.5 per oil, 2 per coal, 0.5 per gas. */
  function FuelPollution(s: CountryState): (p: real)
    requires Sound(s)
    ensures 0.0 <= p <= 14.5
    ensures s.production <= 100.0 ==> p == 0.0
  {
    Burn(s, Oil) as real * 1.5 + Burn(s, Coal) as real * 2.0 + Burn(s, Gas) as real * 0.5
  }

  /** Fuel use: every fuel loses what is burnt (never below 0) and pollution
      rises by the fuel's pollution. */
  function Burned(s: CountryState): (r: CountryState)
    requires Sound(s)
    ensures Sound(r)
    ensures r == s.(resources := r.resources, pollution := s.pollution + FuelPollution(s))
    ensures forall x: Resource :: r.resources[x] == s.resources[x] - Burn(s, x)
  {
    if s.production <= 100.0 then s
    else
      s.(resources := s.resources[Oil := IntMax(0, s.resources[Oil] - Burn(s, Oil))]
                                 [Coal := IntMax(0, s.resources[Coal] - Burn(s, Coal))]
                                 [Gas := IntMax(0, s.resources[Gas] - Burn(s, Gas))],
         pollution := s.pollution + FuelPollution(s))
  }

  /** No oil: production -30%, happiness -10 (not below 0), rebellion risk
      +0.1. */
  function NoOil(s: CountryState): (r: CountryState)
    requires Sound(s)
    ensures Sound(r)
    ensures r == s.(production := r.production, happiness := r.happiness,
                    rebellionRisk := r.rebellionRisk)
    ensures r.production <= s.production && r.happiness <= s.happiness
  {
    s.(production := s.production * 0.7, happiness := Max(0.0, s.happiness - 10.0),
       rebellionRisk := s.rebellionRisk + 0.1)
  }

  /** No coal: production -20%, happiness -5 (not below 0). */
  function NoCoal(s: CountryState): (r: CountryState)
    requires Sound(s)
    ensures Sound(r)
    ensures r == s.(production := r.production, happiness := r.happiness)
    ensures r.production <= s.production && r.happiness <= s.happiness
  {
    s.(production := s.production * 0.8, happiness := Max(0.0, s.happiness - 5.0))
  }

  /** No gas: production -10%, money -5000. */
  function NoGas(s: CountryState): (r: CountryState)
    requires Sound(s)
    ensures Sound(r)
    ensures r == s.(production := r.production, money := s.money - 5000)
    ensures r.production <= s.production
  {
    s.(production := s.production * 0.9, money := s.money - 5000)
  }

  /** Shortages, checked in turn: no oil, then no coal, then no gas. */
  function Shortages(s: CountryState): (r: CountryState)
    requires Sound(s)
    ensures Sound(r)
    ensures r == s.(production := r.production, happiness := r.happiness,
                    rebellionRisk := r.rebellionRisk, money := r.money)
    ensures r.production <= s.production && r.happiness <= s.happiness
    ensures (forall x: Resource :: x != Forest ==> s.resources[x] > 0) ==> r == s
    ensures r.money == s.money - (if s.resources[Gas] == 0 then 5000 else 0)
  {
    var a := if s.resources[Oil] == 0 then NoOil(s) else s;
    var b := if a.resources[Coal] == 0 then NoCoal(a) else a;
    if b.resources[Gas] == 0 then NoGas(b) else b
  }

  /** Forests above 70 cheer the country (+3 happiness, capped at 100);
      forests below 30 cost 3 happiness (not below 0) and add 0.05 rebellion
      risk. */
  function ForestMood(s: CountryState): (r: CountryState)
    requires Sound(s)
    ensures Sound(r)
    ensures r == s.(happiness := r.happiness, rebellionRisk := r.rebellionRisk)
    ensures s.resources[Forest] > 70 ==> r.happiness == Min(100.0, s.happiness + 3.0)
    ensures s.resources[Forest] < 30 ==>
              r.happiness == Max(0.0, s.happiness - 3.0) && r.rebellionRisk == s.rebellionRisk + 0.05
    ensures 30 <= s.resources[Forest] <= 70 ==> r == s
  {
    if s.resources[Forest] > 70 then s.(happiness := Min(100.0, s.happiness + 3.0))
    else if s.resources[Forest] < 30 then
      s.(happiness := Max(0.0, s.happiness - 3.0), rebellionRisk := s.rebellionRisk + 0.05)
    else s
  }

  /** Ecosystem health after a country's forests: +1 (capped at 100) when its
      forest exceeds 70. */
  function ForestHealth(forest: int, health: real): (h: real)
    ensures forest > 70 ==> h == Min(100.0, health + 1.0)
    ensures forest <= 70 ==> h == health
  {
    if forest > 70 then Min(100.0, health + 1.0) else health
  }

  /** The stock after the first `i` resources, in key order, have each
      grown by 3. */
  function GrownEach(stock: map<Resource, int>, i: nat): (r: map<Resource, int>)
    requires i <= |ResourceOrder| && forall x: Resource :: x in stock
    ensures forall x: Resource :: x in r
  {
    if i == 0 then stock
    else
      var p := GrownEach(stock, i - 1);
      var x := ResourceOrder[i - 1];
      p[x := p[x] + 3]
  }

  /** Each of the first `i` resources has grown by exactly 3, the others not
      at all. */
  lemma {:induction false} GrownEachAt(stock: map<Resource, int>, i: nat)
    requires i <= |ResourceOrder| && forall x: Resource :: x in stock
    ensures forall x: Resource :: GrownEach(stock, i)[x] == stock[x] + (if Rank(x) < i then 3 else 0)
  {
    if i > 0 {
      GrownEachAt(stock, i - 1);
    }
  }

  /** Regeneration: forest +2; a left government adds 3 to every resource,
      a right one 2 to oil and coal. */
  function Regenerated(s: CountryState): (r: CountryState)
    requires Sound(s)
    ensures Sound(r)
    ensures r == s.(resources := r.resources)
    ensures r.resources[Forest] == s.resources[Forest] + if s.government == Left then 5 else 2
    ensures r.resources[Oil] == s.resources[Oil] + if s.government == Left then 3 else 2
    ensures r.resources[Coal] == s.resources[Coal] + if s.government == Left then 3 else 2
    ensures r.resources[Gas] == s.resources[Gas] + if s.government == Left then 3 else 0
  {
    var grown := s.resources[Forest := s.resources[Forest] + 2];
    if s.government == Left then
      GrownEachAt(grown, |ResourceOrder|);
      s.(resources := GrownEach(grown, |ResourceOrder|))
    else
      s.(resources := grown[Oil := grown[Oil] + 2][Coal := grown[Coal] + 2])
  }

  /** Production above 100 adds 3 pollution. */
  function IndustryPollution(s: CountryState): real
  {
    if s.production > 100.0 then 3.0 else 0.0
  }

  /** The happiness a healthy ecosystem brings: 5 under a right government,
      7 under a left one. */
  function HealthyCheer(g: Government): (h: real)
    ensures h == 5.0 || h == 7.0
  {
    if g == Right then 5.0 else 7.0
  }

  /** The ecosystem's feedback: health below 30 costs 5 happiness and adds
      0.05 rebellion risk; health above 70 adds 5 (right) or 7 (left)
      happiness, capped at 100, and 5% money. */
  function EcoFeedback(s: CountryState, health: real): (r: CountryState)
    requires Sound(s)
    ensures Sound(r)
    ensures r == s.(happiness := r.happiness, rebellionRisk := r.rebellionRisk, money := r.money)
    ensures health < 30.0 ==> r.happiness <= s.happiness && r.rebellionRisk == s.rebellionRisk + 0.05
    ensures health > 70.0 ==> r.happiness >= s.happiness && r.rebellionRisk == s.rebellionRisk
    ensures 30.0 <= health <= 70.0 ==> r == s
  {
    if health < 30.0 then
      s.(happiness := Max(0.0, s.happiness - 5.0), rebellionRisk := s.rebellionRisk + 0.05)
    else if health > 70.0 then
      s.(happiness := Min(100.0, s.happiness + HealthyCheer(s.government)),
         money := Trunc(s.money as real * 1.05))
    else s
  }

  /** A sports year (every fourth year, on a coin below 0.3): happiness +5
      (capped at 100), rebellion risk -2 (not below 0), production +10%. */
  function SportsYear(s: CountryState, coin: real): (r: CountryState)
    requires Sound(s)
    ensures Sound(r)
    ensures !(s.year % 4 == 0 && coin < 0.3) ==> r == s
    ensures s.year % 4 == 0 && coin < 0.3 ==>
              r == s.(happiness := Min(100.0, s.happiness + 5.0),
                      rebellionRisk := Max(0.0, s.rebellionRisk - 2.0),
                      production := s.production * 1.1)
  {
    if s.year % 4 == 0 && coin < 0.3 then
      s.(happiness := Min(100.0, s.happiness + 5.0),
         rebellionRisk := Max(0.0, s.rebellionRisk - 2.0),
         production := s.production * 1.1)
    else s
  }

  /** Education migration (education below 4, on a coin below 0.2): 1% of
      the population leaves and happiness falls by 2 (not below 0). */
  function EducationMigration(s: CountryState, coin: real): (r: CountryState)
    requires Sound(s)
    ensures Sound(r)
    ensures r == s.(population := r.population, happiness := r.happiness)
    ensures r.population <= s.population
    ensures !(s.educationLevel < 4 && coin < 0.2) ==> r == s
  {
    if s.educationLevel < 4 && coin < 0.2 then
      ScaledDown(s.population, 0.01);
      s.(population := s.population - Trunc(s.population as real * 0.01),
         happiness := Max(0.0, s.happiness - 2.0))
    else s
  }

  /** Tech migration (technology below 5, on a coin below 0.15): the drawn
      share (3% to 7%) of the population leaves and happiness falls by 5 (not
      below 0). */
  function TechMigration(s: CountryState, coin: real, share: real): (r: CountryState)
    requires Sound(s) && 0.03 <= share <= 0.07
    ensures Sound(r)
    ensures r == s.(population := r.population, happiness := r.happiness)
    ensures r.population <= s.population
    ensures !(s.techLevel < 5 && coin < 0.15) ==> r == s
  {
    if s.techLevel < 5 && coin < 0.15 then
      ScaledDown(s.population, share);
      s.(population := s.population - Trunc(s.population as real * share),
         happiness := Max(0.0, s.happiness - 5.0))
    else s
  }

  /** The working half of upkeep: growth, fuel use, shortages, the
      forests' mood, regeneration and industry pollution. */
  function Worked(s: CountryState): (r: CountryState)
    requires Sound(s)
    ensures Sound(r)
    ensures r.year == s.year + 1
  {
    var grown := Regenerated(ForestMood(Shortages(Burned(Grown(s)))));
    grown.(pollution := grown.pollution + IndustryPollution(grown))
  }

  /** The living half of upkeep: the ecosystem's feedback at the given
      health, the sports year and the two migrations. */
  function Lived(s: CountryState, health: real, d: TurnDraw): (r: CountryState)
    requires Sound(s) && DrawInRange(d)
    ensures Sound(r)
    ensures r.year == s.year && r.pollution == s.pollution
  {
    TechMigration(EducationMigration(SportsYear(EcoFeedback(s, health), d.sportsCoin),
                                     d.educationCoin), d.techCoin, d.techShare)
  }

  /** The phases of a turn before taxes, one after another, with the
      ecosystem health the country reads (which its own forests may have
      raised). */
  function Upkeep(s: CountryState, health: real, d: TurnDraw): (r: CountryState)
    requires Sound(s) && DrawInRange(d)
    ensures Sound(r)
    ensures r.year == s.year + 1
  {
    Lived(Worked(s), UpkeepHealth(s, health), d)
  }

  /** What upkeep adds to the country's own regional pollution entry: the
      fuel it burns after growing, and its industry once regenerated. */
  function UpkeepPollution(s: CountryState): (p: real)
    requires Sound(s)
    ensures 0.0 <= p <= 17.5
  {
    var grown := Grown(s);
    FuelPollution(grown) + IndustryPollution(Regenerated(ForestMood(Shortages(Burned(grown)))))
  }

  /** Ecosystem health after the country's forests are read during upkeep. */
  function UpkeepHealth(s: CountryState, health: real): (h: real)
    requires Sound(s)
    ensures 0.0 <= health <= 100.0 ==> health <= h <= 100.0
  {
    ForestHealth(Shortages(Burned(Grown(s))).resources[Forest], health)
  }

  /** Upkeep raises the country's pollution by exactly what it adds to its
      regional entry: the two stay in step. */
  lemma UpkeepPollutionTracked(s: CountryState, health: real, d: TurnDraw)
    requires Sound(s) && DrawInRange(d)
    ensures Upkeep(s, health, d).pollution == s.pollution + UpkeepPollution(s)
  {
    var fed := ForestMood(Shortages(Burned(Grown(s))));
    assert fed.pollution == s.pollution + FuelPollution(Grown(s));
  }

  /** A government falls: it flips, ideology is negated and happiness is
      reset to 70. */
  function Overthrown(s: CountryState): (r: CountryState)
    requires Sound(s)
    ensures Sound(r)
    ensures r == s.(government := Flipped(s.government), ideology := -s.ideology, happiness := 70.0)
  {
    s.(government := Flipped(s.government), ideology := -s.ideology, happiness := 70.0)
  }

  /** The four-yearly political check: with happiness at most 50 the
      government flips, ideology is negated and happiness is reset to 70;
      otherwise nothing changes. */
  function PoliticalCheck(s: CountryState): (r: CountryState)
    requires Sound(s)
    ensures Sound(r)
    ensures s.year % 4 != 0 || s.happiness > 50.0 ==> r == s
    ensures s.year % 4 == 0 && s.happiness <= 50.0 ==>
              r == s.(government := Flipped(s.government), ideology := -s.ideology, happiness := 70.0)
  {
    if s.year % 4 == 0 && s.happiness <= 50.0 then Overthrown(s) else s
  }

  /** A second political check in the same year changes nothing: after the
      first, happiness is above 50 or the year is not a fourth one. */
  lemma PoliticalCheckSettles(s: CountryState)
    requires Sound(s)
    ensures PoliticalCheck(PoliticalCheck(s)) == PoliticalCheck(s)
  {
  }

  /** The uprising itself: population -10%, military power and money
      halved. */
  function Uprising(s: CountryState): (r: CountryState)
    requires Sound(s)
    ensures Sound(r)
    ensures r == s.(population := r.population, militaryPower := r.militaryPower, money := r.money)
    ensures r.population <= s.population && r.militaryPower <= s.militaryPower
  {
    ScaledDown(s.population, 0.9);
    ScaledDown(s.militaryPower, 0.5);
    s.(population := Trunc(s.population as real * 0.9),
       militaryPower := Trunc(s.militaryPower as real * 0.5),
       money := Trunc(s.money as real * 0.5))
  }

  /** A rebellion: the uprising; then on a coin below 0.25 the government
      falls, otherwise happiness becomes the drawn value in 30..40. */
  function Rebellion(s: CountryState, coin: real, restored: int): (r: CountryState)
    requires Sound(s) && 30 <= restored <= 40
    ensures Sound(r)
    ensures r.happiness >= 30.0
    ensures r.population <= s.population && r.militaryPower <= s.militaryPower
    ensures coin < 0.25 ==> r.government == Flipped(s.government) && r.ideology == -s.ideology
    ensures coin >= 0.25 ==> r.government == s.government && r.ideology == s.ideology
    ensures r.resources == s.resources && r.tension == s.tension && r.year == s.year
  {
    var r := Uprising(s);
    if coin < 0.25 then Overthrown(r) else r.(happiness := restored as real)
  }

  /** The end of a turn: a rebellion when happiness is below 20 and the
      country has not rebelled this year, happiness floored at 0, and the
      rebellion flag cleared. */
  function YearEnd(s: CountryState, coin: real, restored: int): (r: CountryState)
    requires Sound(s) && 30 <= restored <= 40
    ensures Sound(r)
    ensures !r.hasRebelled
    ensures !s.hasRebelled ==> r.happiness >= 20.0
    ensures s.happiness >= 20.0 ==> r == s.(hasRebelled := false)
  {
    var t := if s.happiness < 20.0 && !s.hasRebelled then Rebellion(s, coin, restored) else s;
    var u := if t.happiness < 0.0 then t.(happiness := 0.0) else t;
    u.(hasRebelled := false)
  }
}
