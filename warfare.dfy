// War as values: which ordered pairs of countries are candidates for war,
// the combat scores and the tie rule, and the transfer of a defeated
// country's resources to the winner.

module Warfare {
  import opened Basics
  import opened Countries

  /** The tension the war check reads: the attacker's tension toward the
      defender (50 when unset), plus 5 while global pollution exceeds 50. */
  function EffectiveTension(s: CountryState, other: string, globalPollution: real): (t: int)
    ensures t == TensionToward(s, other) + (if globalPollution > 50.0 then 5 else 0)
  {
    var t := TensionToward(s, other);
    if globalPollution > 50.0 then t + 5 else t
  }

  /** The ordered pair (i, j) of distinct countries is a candidate for war:
      the i-th country's effective tension toward the j-th exceeds 70. */
  predicate AtWar(states: seq<CountryState>, names: seq<string>, globalPollution: real, p: (nat, nat))
    requires |states| == |names|
  {
    p.0 < |states| && p.1 < |states| && p.0 != p.1
    && EffectiveTension(states[p.0], names[p.1], globalPollution) > 70
  }

  /** The candidates (i, j) for j < `j`, in the order of the inner loop. */
  function RowCandidates(states: seq<CountryState>, names: seq<string>, globalPollution: real,
                         i: nat, j: nat): seq<(nat, nat)>
    requires |states| == |names| && i < |states| && j <= |states|
  {
    if j == 0 then []
    else
      RowCandidates(states, names, globalPollution, i, j - 1)
      + (if AtWar(states, names, globalPollution, (i, j - 1)) then [(i, j - 1)] else [])
  }

  /** The candidates (i, j) for i < `i`, in the order of the nested loops. */
  function Candidates(states: seq<CountryState>, names: seq<string>, globalPollution: real,
                      i: nat): seq<(nat, nat)>
    requires |states| == |names| && i <= |states|
  {
    if i == 0 then []
    else
      Candidates(states, names, globalPollution, i - 1)
      + RowCandidates(states, names, globalPollution, i - 1, |states|)
  }

  lemma {:induction false} RowCandidatesExactly(states: seq<CountryState>, names: seq<string>,
                                                globalPollution: real, i: nat, j: nat)
    requires |states| == |names| && i < |states| && j <= |states|
    ensures forall p :: p in RowCandidates(states, names, globalPollution, i, j)
              <==> p.0 == i && p.1 < j && AtWar(states, names, globalPollution, p)
  {
    if j > 0 {
      RowCandidatesExactly(states, names, globalPollution, i, j - 1);
    }
  }

  /** The candidate list holds every ordered pair of distinct countries whose
      effective tension exceeds 70, and nothing else. */
  lemma {:induction false} CandidatesExactly(states: seq<CountryState>, names: seq<string>,
                                             globalPollution: real, i: nat)
    requires |states| == |names| && i <= |states|
    ensures forall p :: p in Candidates(states, names, globalPollution, i)
              <==> p.0 < i && AtWar(states, names, globalPollution, p)
  {
    if i > 0 {
      CandidatesExactly(states, names, globalPollution, i - 1);
      RowCandidatesExactly(states, names, globalPollution, i - 1, |states|);
    }
  }

  /** The combat score: population times the coefficient (0.15 attacking,
      0.20 defending) times technology, boosted by oil and gas stocks. */
  function CombatScore(s: CountryState, coefficient: real): (score: real)
    requires Sound(s)
    ensures coefficient >= 0.0 ==> score >= 0.0
  {
    var boost := 1.0 + s.resources[Oil] as real / 100.0 + s.resources[Gas] as real / 200.0;
    assert boost >= 1.0;
    var base := s.population as real * coefficient;
    assert coefficient >= 0.0 ==> base >= 0.0;
    assert coefficient >= 0.0 ==> base * s.techLevel as real >= 0.0;
    base * s.techLevel as real * boost
  }

  datatype Outcome = Stalemate | AttackerWins | DefenderWins

  /** Equal scores are a stalemate; otherwise the higher score wins. */
  function Battle(attacker: CountryState, defender: CountryState): (o: Outcome)
    requires Sound(attacker) && Sound(defender)
    ensures o == Stalemate <==> CombatScore(attacker, 0.15) == CombatScore(defender, 0.20)
    ensures o == AttackerWins <==> CombatScore(attacker, 0.15) > CombatScore(defender, 0.20)
    ensures o == DefenderWins <==> CombatScore(attacker, 0.15) < CombatScore(defender, 0.20)
  {
    var a := CombatScore(attacker, 0.15);
    var d := CombatScore(defender, 0.20);
    if a == d then Stalemate else if a > d then AttackerWins else DefenderWins
  }

  /** What a defeated country gives up of a stock: int(stock * 0.3). */
  function Spoils(stock: int): (loss: int)
    requires stock >= 0
    ensures 0 <= loss <= stock
  {
    Trunc(stock as real * 0.3)
  }

  /** The winner, once its resources have become `stock`: population -2%,
      happiness +5 (capped at 100), pollution +10 and +2, rebellion risk
      +0.05. */
  function Triumph(w: CountryState, stock: map<Resource, int>): (r: CountryState)
    requires Sound(w) && forall x: Resource :: x in stock && stock[x] >= 0
    ensures Sound(r)
    ensures r == w.(resources := stock, population := r.population,
                    happiness := Min(100.0, w.happiness + 5.0), pollution := w.pollution + 12.0,
                    rebellionRisk := w.rebellionRisk + 0.05)
    ensures r.population <= w.population
  {
    assert w.population as real * 0.02 <= w.population as real;
    w.(resources := stock,
       population := w.population - Trunc(w.population as real * 0.02),
       happiness := Min(100.0, w.happiness + 5.0),
       pollution := w.pollution + 10.0 + 2.0,
       rebellionRisk := w.rebellionRisk + 0.05)
  }

  /** The loser, once its resources have become `stock`: population -5%,
      happiness -10 (floored at 0), pollution +10 and +2, rebellion risk
      +0.05. */
  function Defeat(l: CountryState, stock: map<Resource, int>): (r: CountryState)
    requires Sound(l) && forall x: Resource :: x in stock && stock[x] >= 0
    ensures Sound(r)
    ensures r == l.(resources := stock, population := r.population,
                    happiness := Max(0.0, l.happiness - 10.0), pollution := l.pollution + 12.0,
                    rebellionRisk := l.rebellionRisk + 0.05)
    ensures r.population <= l.population
  {
    assert l.population as real * 0.05 <= l.population as real;
    l.(resources := stock,
       population := l.population - Trunc(l.population as real * 0.05),
       happiness := Max(0.0, l.happiness - 10.0),
       pollution := l.pollution + 10.0 + 2.0,
       rebellionRisk := l.rebellionRisk + 0.05)
  }

  /** The loser's stock after the first `i` resources, in key order, have
      each lost their spoils, reckoned on the stock at that moment. */
  function Plundered(stock: map<Resource, int>, i: nat): (r: map<Resource, int>)
    requires i <= |ResourceOrder| && forall x: Resource :: x in stock && stock[x] >= 0
    ensures forall x: Resource :: x in r && r[x] >= 0
  {
    if i == 0 then stock
    else
      var p := Plundered(stock, i - 1);
      var x := ResourceOrder[i - 1];
      p[x := IntMax(0, p[x] - Spoils(p[x]))]
  }

  /** The winner's stock after the first `i` resources, in key order, have
      each gained the spoils of the loser's pre-war stock `theirs`. */
  function Enriched(mine: map<Resource, int>, theirs: map<Resource, int>, i: nat): (r: map<Resource, int>)
    requires i <= |ResourceOrder|
    requires forall x: Resource :: x in mine && mine[x] >= 0
    requires forall x: Resource :: x in theirs && theirs[x] >= 0
    ensures forall x: Resource :: x in r && r[x] >= 0
  {
    if i == 0 then mine
    else
      var p := Enriched(mine, theirs, i - 1);
      var x := ResourceOrder[i - 1];
      p[x := p[x] + Spoils(theirs[x])]
  }

  /** Each of the first `i` resources has lost its spoils, reckoned on the
      stock before the war since each key is visited once; the others are
      untouched. */
  lemma {:induction false} PlunderedAt(theirs: map<Resource, int>, i: nat)
    requires i <= |ResourceOrder| && forall x: Resource :: x in theirs && theirs[x] >= 0
    ensures forall x: Resource :: Rank(x) < i ==>
              Plundered(theirs, i)[x] == IntMax(0, theirs[x] - Spoils(theirs[x]))
    ensures forall x: Resource :: i <= Rank(x) ==> Plundered(theirs, i)[x] == theirs[x]
  {
    forall x: Resource
      ensures Plundered(theirs, i)[x]
              == if Rank(x) < i then IntMax(0, theirs[x] - Spoils(theirs[x])) else theirs[x]
    {
      PlunderedOne(theirs, i, x);
    }
  }

  /** PlunderedAt for one resource. */
  lemma {:induction false} PlunderedOne(theirs: map<Resource, int>, i: nat, x: Resource)
    requires i <= |ResourceOrder| && forall x: Resource :: x in theirs && theirs[x] >= 0
    ensures Plundered(theirs, i)[x]
            == if Rank(x) < i then IntMax(0, theirs[x] - Spoils(theirs[x])) else theirs[x]
  {
    if i > 0 {
      PlunderedOne(theirs, i - 1, x);
      if Rank(x) != i - 1 {
        assert x != ResourceOrder[i - 1];
      }
    }
  }

  /** The resource at position `i` is still untouched after the first `i`
      have been plundered. */
  lemma NotYetPlundered(theirs: map<Resource, int>, i: nat)
    requires i < |ResourceOrder| && forall x: Resource :: x in theirs && theirs[x] >= 0
    ensures Plundered(theirs, i)[ResourceOrder[i]] == theirs[ResourceOrder[i]]
  {
    PlunderedAt(theirs, i);
    assert Rank(ResourceOrder[i]) == i;
  }

  /** Each of the first `i` resources has gained the loser's spoils of it,
      the others nothing. */
  lemma {:induction false} EnrichedAt(mine: map<Resource, int>, theirs: map<Resource, int>, i: nat)
    requires i <= |ResourceOrder|
    requires forall x: Resource :: x in mine && mine[x] >= 0
    requires forall x: Resource :: x in theirs && theirs[x] >= 0
    ensures forall x: Resource :: Rank(x) < i ==>
              Enriched(mine, theirs, i)[x] == mine[x] + Spoils(theirs[x])
    ensures forall x: Resource :: i <= Rank(x) ==> Enriched(mine, theirs, i)[x] == mine[x]
  {
    forall x: Resource
      ensures Enriched(mine, theirs, i)[x] == if Rank(x) < i then mine[x] + Spoils(theirs[x]) else mine[x]
    {
      EnrichedOne(mine, theirs, i, x);
    }
  }

  /** EnrichedAt for one resource. */
  lemma {:induction false} EnrichedOne(mine: map<Resource, int>, theirs: map<Resource, int>, i: nat, x: Resource)
    requires i <= |ResourceOrder|
    requires forall x: Resource :: x in mine && mine[x] >= 0
    requires forall x: Resource :: x in theirs && theirs[x] >= 0
    ensures Enriched(mine, theirs, i)[x] == if Rank(x) < i then mine[x] + Spoils(theirs[x]) else mine[x]
  {
    if i > 0 {
      EnrichedOne(mine, theirs, i - 1, x);
      if Rank(x) != i - 1 {
        assert x != ResourceOrder[i - 1];
      }
    }
  }

  /** The winner: every resource gains the loser's spoils, then the rest of
      the winner's changes. */
  function Victor(w: CountryState, l: CountryState): (r: CountryState)
    requires Sound(w) && Sound(l)
    ensures Sound(r)
  {
    EnrichedAt(w.resources, l.resources, |ResourceOrder|);
    Triumph(w, Enriched(w.resources, l.resources, |ResourceOrder|))
  }

  /** The loser: every resource loses its spoils (never below 0), then the
      rest of the loser's changes. */
  function Vanquished(l: CountryState): (r: CountryState)
    requires Sound(l)
    ensures Sound(r)
  {
    PlunderedAt(l.resources, |ResourceOrder|);
    Defeat(l, Plundered(l.resources, |ResourceOrder|))
  }

  /** The winner's state differs from its state before the war only in
      resources, population, happiness, pollution and rebellion risk: each
      resource gains the loser's spoils, population never grows, and
      happiness rises by 5 up to 100. */
  lemma VictorShape(w: CountryState, l: CountryState)
    requires Sound(w) && Sound(l)
    ensures var r := Victor(w, l);
            && r == w.(resources := r.resources, population := r.population,
                       happiness := r.happiness, pollution := r.pollution,
                       rebellionRisk := r.rebellionRisk)
            && (forall x: Resource :: r.resources[x] == w.resources[x] + Spoils(l.resources[x]))
            && r.population <= w.population
            && r.happiness == Min(100.0, w.happiness + 5.0)
  {
    EnrichedAt(w.resources, l.resources, |ResourceOrder|);
  }

  /** The loser's state differs from its state before the war only in
      resources, population, happiness, pollution and rebellion risk: each
      resource loses its spoils, population never grows, and happiness falls
      by 10 down to 0. */
  lemma VanquishedShape(l: CountryState)
    requires Sound(l)
    ensures var r := Vanquished(l);
            && r == l.(resources := r.resources, population := r.population,
                       happiness := r.happiness, pollution := r.pollution,
                       rebellionRisk := r.rebellionRisk)
            && (forall x: Resource :: r.resources[x] == l.resources[x] - Spoils(l.resources[x]))
            && r.population <= l.population
            && r.happiness == Max(0.0, l.happiness - 10.0)
  {
    PlunderedAt(l.resources, |ResourceOrder|);
  }

  /** A decided war moves resources and creates none: per resource, winner
      plus loser hold after the war what they held before it. */
  lemma SpoilsConserved(w: CountryState, l: CountryState)
    requires Sound(w) && Sound(l)
    ensures forall x: Resource ::
              Victor(w, l).resources[x] + Vanquished(l).resources[x] == w.resources[x] + l.resources[x]
  {
    VictorShape(w, l);
    VanquishedShape(l);
  }

  /** The attacker's reward for a fought war: happiness gained, money gained
      in units of 10^7, less pollution gained, twice the size of the change in
      ecosystem health and ten times the rebellion risk gained, plus 10 for a
      win or minus 10 for a defeat. */
  function WarReward(before: CountryState, after: CountryState, healthBefore: real,
                     healthAfter: real, won: bool): (reward: real)
    ensures before == after && healthBefore == healthAfter ==>
              reward == if won then 10.0 else -10.0
    ensures after == before.(happiness := after.happiness) && healthBefore == healthAfter ==>
              reward - (after.happiness - before.happiness) == if won then 10.0 else -10.0
  {
    var deltaHealth := healthAfter - healthBefore;
    var base := (after.happiness - before.happiness)
                + (after.money - before.money) as real / 10000000.0
                - (after.pollution - before.pollution)
                - (if deltaHealth < 0.0 then -deltaHealth else deltaHealth) * 2.0
                - (after.rebellionRisk - before.rebellionRisk) * 10.0;
    if won then base + 10.0 else base - 10.0
  }

  /** A decided war's tensions for one side: its tension toward the other
      rises by `rise` (10 for the winner, 30 for the loser); after a peace
      agreement it then falls by 20. */
  function Settled(s: CountryState, other: string, rise: int, peace: bool): (r: CountryState)
    ensures Sound(s) ==> Sound(r)
  {
    var raised := WithTension(s, other, rise);
    if peace then WithTension(raised, other, -20) else raised
  }
  /** Settling changes only the tension map: the tension toward the other
      side rises by `rise` within 0..100, then falls by 20 (never below 0)
      after a peace agreement. */
  lemma SettledShape(s: CountryState, other: string, rise: int, peace: bool)
    ensures var r := Settled(s, other, rise, peace);
            && r == s.(tension := r.tension)
            && (!peace ==> TensionToward(r, other) == Clamp(TensionToward(s, other) + rise, 0, 100))
            && (peace ==> TensionToward(r, other) == IntMax(0, Clamp(TensionToward(s, other) + rise, 0, 100) - 20))
  {
  }


  /** After a peace agreement the winner is no more tense toward the loser
      than before the war, and after a defeat without one the loser's
      tension toward the winner is at least 30. */
  lemma PeaceCools(w: CountryState, l: CountryState, wName: string, lName: string)
    requires Sound(w) && Sound(l)
    ensures TensionToward(Settled(w, lName, 10, true), lName) <= TensionToward(w, lName)
    ensures TensionToward(Settled(l, wName, 30, false), wName) >= 30
  {
  }

  /** The attacker's and the defender's states after a decided war: the side
      with the higher score takes the victor's part and the other the
      vanquished's, and each settles its tension toward the other. */
  function AfterWar(attacker: CountryState, defender: CountryState, attackerName: string,
                    defenderName: string, peace: bool): (r: (CountryState, CountryState))
    requires Sound(attacker) && Sound(defender) && Battle(attacker, defender) != Stalemate
    ensures Sound(r.0) && Sound(r.1)
    ensures Battle(attacker, defender) == AttackerWins ==>
              && r.0 == Settled(Victor(attacker, defender), defenderName, 10, peace)
              && r.1 == Settled(Vanquished(defender), attackerName, 30, peace)
    ensures Battle(attacker, defender) == DefenderWins ==>
              && r.0 == Settled(Vanquished(attacker), defenderName, 30, peace)
              && r.1 == Settled(Victor(defender, attacker), attackerName, 10, peace)
  {
    if Battle(attacker, defender) == AttackerWins then
      (Settled(Victor(attacker, defender), defenderName, 10, peace),
       Settled(Vanquished(defender), attackerName, 30, peace))
    else
      (Settled(Vanquished(attacker), defenderName, 30, peace),
       Settled(Victor(defender, attacker), attackerName, 10, peace))
  }

  /** The ecosystem's health after a decided war: 15 less, never below 0. */
  function WarHealth(health: real): (h: real)
    ensures h >= 0.0 && h <= Max(0.0, health)
    ensures health >= 15.0 ==> h == health - 15.0
  {
    Max(0.0, health - 15.0)
  }

  /** The regional entries after a decided war: the winner's, then the
      loser's, rise by 12. */
  function WarRegional(regional: map<string, real>, winner: string, loser: string): (r: map<string, real>)
    requires winner in regional && loser in regional
    ensures r.Keys == regional.Keys
  {
    var once := regional[winner := regional[winner] + 12.0];
    once[loser := once[loser] + 12.0]
  }

  /** With distinct names, each side's entry rises by exactly 12 and every
      other entry is kept, whichever side won. */
  lemma WarRegionalAt(regional: map<string, real>, winner: string, loser: string)
    requires winner in regional && loser in regional && winner != loser
    ensures WarRegional(regional, winner, loser) == WarRegional(regional, loser, winner)
    ensures WarRegional(regional, winner, loser)[winner] == regional[winner] + 12.0
    ensures WarRegional(regional, winner, loser)[loser] == regional[loser] + 12.0
    ensures forall n :: n in regional && n != winner && n != loser ==>
              WarRegional(regional, winner, loser)[n] == regional[n]
  {
  }
}
