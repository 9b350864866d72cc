// The ecosystem's rules as values: the alarm ratchet, regional pollution and
// its penalty, ecosystem-health decay, the infrastructure severity multiplier
// and the three disasters, and the choice of the countries they strike.

module Ecology {
  import opened Basics
  import opened Countries

  // ---------------------------------------------------------------- alarm

  /** The alarm thresholds on global pollution for levels 1, 2 and 3. */
  const Thresholds: seq<real> := [30.0, 50.0, 70.0]

  /** The search `sound_alarm` performs: the first level i (from `i` on, up
      to 3) whose threshold global pollution exceeds while the current level
      is still below i; the level is unchanged when there is none. */
  function AlarmSearch(level: int, globalPollution: real, i: nat): int
    requires 1 <= i <= 4
    decreases 4 - i
  {
    if i == 4 then level
    else if globalPollution > Thresholds[i - 1] && level < i then i
    else AlarmSearch(level, globalPollution, i + 1)
  }

  /** The alarm level after one `sound_alarm`. */
  function RaisedAlarm(level: int, globalPollution: real): int
  {
    AlarmSearch(level, globalPollution, 1)
  }

  /** The alarm ratchet: the level never falls, never passes 3, and rises by
      exactly one when it is below 3 and global pollution exceeds the
      threshold of the next level; otherwise it stays where it is. */
  lemma {:induction false} AlarmRatchet(level: int, globalPollution: real)
    requires 0 <= level <= 3
    ensures level <= RaisedAlarm(level, globalPollution) <= 3
    ensures RaisedAlarm(level, globalPollution) == level + 1
            <==> level < 3 && globalPollution > Thresholds[level]
    ensures RaisedAlarm(level, globalPollution) == level
            <==> !(level < 3 && globalPollution > Thresholds[level])
  {
    assert Thresholds[0] < Thresholds[1] < Thresholds[2];
    var r1 := AlarmSearch(level, globalPollution, 1);
    var r2 := AlarmSearch(level, globalPollution, 2);
    var r3 := AlarmSearch(level, globalPollution, 3);
    assert AlarmSearch(level, globalPollution, 4) == level;
    assert r3 == if globalPollution > 70.0 && level < 3 then 3 else level;
    assert r2 == if globalPollution > 50.0 && level < 2 then 2 else r3;
    assert r1 == if globalPollution > 30.0 && level < 1 then 1 else r2;
  }

  // ------------------------------------------------------------- severity

  /** The disaster severity multiplier: 2 for infrastructure below 50, 0.5
      above 70, and 1 in between. */
  function Severity(infrastructure: real): (m: real)
    ensures m == 2.0 <==> infrastructure < 50.0
    ensures m == 0.5 <==> infrastructure > 70.0
    ensures m == 1.0 <==> 50.0 <= infrastructure <= 70.0
  {
    if infrastructure < 50.0 then 2.0
    else if infrastructure > 70.0 then 0.5
    else 1.0
  }

  // ------------------------------------------------------------ disasters

  /** Disease in the most polluted country: population shrinks by 5% times
      the severity, happiness falls by 10 times the severity but not below 0,
      and rebellion risk rises by 0.05 times the severity. */
  function Disease(s: CountryState): (r: CountryState)
    requires Sound(s)
    ensures Sound(r)
    ensures r == s.(population := r.population, happiness := r.happiness,
                    rebellionRisk := r.rebellionRisk)
    ensures r.population <= s.population
    ensures r.happiness == Max(0.0, s.happiness - 10.0 * Severity(s.infrastructure))
    ensures r.rebellionRisk == s.rebellionRisk + 0.05 * Severity(s.infrastructure)
  {
    var m := Severity(s.infrastructure);
    ScaledDown(s.population, 1.0 - 0.05 * m);
    s.(population := Trunc(s.population as real * (1.0 - 0.05 * m)),
       happiness := Max(0.0, s.happiness - 10.0 * m),
       rebellionRisk := s.rebellionRisk + 0.05 * m)
  }

  /** An earthquake: population falls by int(5000 times the severity) but
      not below 0, production shrinks by 20% times the severity, happiness
      falls by 5 times the severity but not below 0. */
  function Earthquake(s: CountryState): (r: CountryState)
    requires Sound(s)
    ensures Sound(r)
    ensures r == s.(population := r.population, production := r.production,
                    happiness := r.happiness)
    ensures r.population == IntMax(0, s.population - Trunc(5000.0 * Severity(s.infrastructure)))
    ensures r.production <= s.production
    ensures r.happiness == Max(0.0, s.happiness - 5.0 * Severity(s.infrastructure))
  {
    var m := Severity(s.infrastructure);
    assert 0.0 <= 1.0 - 0.2 * m <= 1.0;
    assert s.production * (1.0 - 0.2 * m) <= s.production by {
      assert s.production * (1.0 - 0.2 * m) + s.production * (0.2 * m) == s.production;
      assert s.production * (0.2 * m) >= 0.0;
    }
    s.(population := IntMax(0, s.population - Trunc(5000.0 * m)),
       production := Max(0.0, s.production * (1.0 - 0.2 * m)),
       happiness := Max(0.0, s.happiness - 5.0 * m))
  }

  /** A flood: the forest loses int(20 times the severity) but not below 0,
      money shrinks by 10% times the severity, happiness falls by 5 times the
      severity but not below 0. */
  function Flood(s: CountryState): (r: CountryState)
    requires Sound(s)
    ensures Sound(r)
    ensures r == s.(resources := r.resources, money := r.money, happiness := r.happiness)
    ensures r.resources == s.resources[Forest := IntMax(0, s.resources[Forest] - Trunc(20.0 * Severity(s.infrastructure)))]
    ensures r.money == Trunc(s.money as real * (1.0 - 0.1 * Severity(s.infrastructure)))
    ensures r.happiness == Max(0.0, s.happiness - 5.0 * Severity(s.infrastructure))
    ensures r.happiness <= s.happiness && r.population == s.population
  {
    var m := Severity(s.infrastructure);
    s.(resources := s.resources[Forest := IntMax(0, s.resources[Forest] - Trunc(20.0 * m))],
       money := Trunc(s.money as real * (1.0 - 0.1 * m)),
       happiness := Max(0.0, s.happiness - 5.0 * m))
  }

  // ---------------------------------------------------- regional pollution

  /** The sum of a sequence of pollution values, left to right. */
  function Total(p: seq<real>): (t: real)
    ensures (forall i :: 0 <= i < |p| ==> p[i] >= 0.0) ==> t >= 0.0
  {
    if |p| == 0 then 0.0 else Total(p[..|p| - 1]) + p[|p| - 1]
  }

  /** The mean pollution of the countries (the global pollution). */
  function Mean(p: seq<real>): (m: real)
    requires |p| > 0
    ensures (forall i :: 0 <= i < |p| ==> p[i] >= 0.0) ==> m >= 0.0
  {
    Total(p) / |p| as real
  }

  /** A tenth of the pollution of every country other than the i-th. */
  function NeighbourShare(p: seq<real>, i: int): real
  {
    if |p| == 0 then 0.0
    else NeighbourShare(p[..|p| - 1], i) + (if |p| - 1 == i then 0.0 else p[|p| - 1] * 0.1)
  }

  /** The regional pollution of the i-th country: its own pollution plus a
      tenth of every neighbour's. */
  function Regional(p: seq<real>, i: nat): real
    requires i < |p|
  {
    p[i] + NeighbourShare(p, i)
  }

  /** The pollution of each state, in order. */
  function Pollutions(states: seq<CountryState>): (p: seq<real>)
    ensures |p| == |states|
    ensures forall i :: 0 <= i < |states| ==> p[i] == states[i].pollution
  {
    seq(|states|, i requires 0 <= i < |states| => states[i].pollution)
  }

  /** The regional-pollution record `update_pollution` builds from the first
      i countries: each name maps to that country's regional pollution. */
  function RegionalEntries(names: seq<string>, p: seq<real>, i: nat): map<string, real>
    requires |names| == |p| && i <= |p|
  {
    if i == 0 then map[]
    else RegionalEntries(names, p, i - 1)[names[i - 1] := Regional(p, i - 1)]
  }

  /** The record holds exactly the first i names and, with distinct names,
      gives each of those countries its own regional pollution. */
  lemma {:induction false} RegionalEntriesAt(names: seq<string>, p: seq<real>, i: nat)
    requires |names| == |p| && i <= |p|
    requires forall j, k :: 0 <= j < k < |names| ==> names[j] != names[k]
    ensures RegionalEntries(names, p, i).Keys == set k | 0 <= k < i :: names[k]
    ensures forall k :: 0 <= k < i ==> RegionalEntries(names, p, i)[names[k]] == Regional(p, k)
  {
    if i > 0 {
      RegionalEntriesAt(names, p, i - 1);
    }
  }

  /** What the ecosystem's invariant needs after `update_pollution`: the
      mean pollution of sound states is not negative, and every name has a
      regional entry. */
  lemma UpdateKeepsBounds(states: seq<CountryState>, names: seq<string>)
    requires AllSound(states) && |states| > 0 && |names| == |states|
    ensures Mean(Pollutions(states)) >= 0.0
    ensures forall k :: 0 <= k < |names| ==> names[k] in RegionalEntries(names, Pollutions(states), |states|)
  {
    var p := Pollutions(states);
    assert forall i :: 0 <= i < |p| ==> p[i] >= 0.0;
    EntriesCover(names, p, |p|);
  }

  /** Each of the first i names has an entry in the record. */
  lemma {:induction false} EntriesCover(names: seq<string>, p: seq<real>, i: nat)
    requires |names| == |p| && i <= |p|
    ensures forall k :: 0 <= k < i ==> names[k] in RegionalEntries(names, p, i)
  {
    if i > 0 {
      EntriesCover(names, p, i - 1);
    }
  }

  lemma {:induction false} NeighbourShareIsTenth(p: seq<real>, i: int)
    ensures NeighbourShare(p, i) == 0.1 * (Total(p) - (if 0 <= i < |p| then p[i] else 0.0))
    decreases |p|
  {
    if |p| > 0 {
      var q := p[..|p| - 1];
      NeighbourShareIsTenth(q, i);
      if 0 <= i < |q| {
        assert q[i] == p[i];
      }
    }
  }

  /** Regional pollution is nine tenths of the country's own pollution plus a
      tenth of the total; with non-negative values it is at least the
      country's own pollution. */
  lemma RegionalFormula(p: seq<real>, i: nat)
    requires i < |p|
    ensures Regional(p, i) == 0.9 * p[i] + 0.1 * Total(p)
    ensures (forall j :: 0 <= j < |p| ==> p[j] >= 0.0) ==> Regional(p, i) >= p[i]
  {
    NeighbourShareIsTenth(p, i);
  }

  /** The penalty for regional pollution above 50: happiness -5 and forest -10
      (neither below 0), rebellion risk +0.05. */
  function RegionalPenalty(s: CountryState, regional: real): (r: CountryState)
    requires Sound(s)
    ensures Sound(r)
    ensures regional <= 50.0 ==> r == s
    ensures regional > 50.0 ==>
              && r == s.(happiness := r.happiness, resources := r.resources,
                         rebellionRisk := r.rebellionRisk)
              && r.happiness == Max(0.0, s.happiness - 5.0)
              && r.resources == s.resources[Forest := IntMax(0, s.resources[Forest] - 10)]
              && r.rebellionRisk == s.rebellionRisk + 0.05
  {
    if regional > 50.0 then
      s.(happiness := Max(0.0, s.happiness - 5.0),
         resources := s.resources[Forest := IntMax(0, s.resources[Forest] - 10)],
         rebellionRisk := s.rebellionRisk + 0.05)
    else s
  }

  /** The countries after the first i steps of `update_pollution`'s loop:
      each of the first i penalised by its regional pollution among all the
      countries, the others as they were. */
  function Penalised(states: seq<CountryState>, i: nat): (r: seq<CountryState>)
    requires AllSound(states) && i <= |states|
    ensures |r| == |states| && AllSound(r)
    ensures forall k :: 0 <= k < |states| ==>
              r[k] == if k < i then RegionalPenalty(states[k], Regional(Pollutions(states), k)) else states[k]
  {
    var p := Pollutions(states);
    seq(|states|, k requires 0 <= k < |states| =>
          if k < i then RegionalPenalty(states[k], Regional(p, k)) else states[k])
  }

  /** Before the loop nothing is penalised; each step penalises the next
      country and keeps everyone's pollution. */
  lemma PenalisedStep(states: seq<CountryState>, i: nat)
    requires AllSound(states) && i < |states|
    ensures Penalised(states, 0) == states
    ensures Pollutions(Penalised(states, i)) == Pollutions(states)
    ensures Penalised(states, i + 1)
            == Penalised(states, i)[i := RegionalPenalty(states[i], Regional(Pollutions(states), i))]
  {
    assert Penalised(states, 0) == states;
    var st := Penalised(states, i);
    assert forall k :: 0 <= k < |states| ==> st[k].pollution == states[k].pollution;
    assert Pollutions(st) == Pollutions(states);
  }

  /** The penalty leaves every country's pollution, population and
      rebellion flag alone and never makes anyone happier. */
  lemma PenalisedKeeps(states: seq<CountryState>)
    requires AllSound(states)
    ensures forall k :: 0 <= k < |states| ==>
              var r := Penalised(states, |states|)[k];
              && r.pollution == states[k].pollution
              && r.population == states[k].population
              && r.happiness <= states[k].happiness
              && r.hasRebelled == states[k].hasRebelled
  {
    var p := Pollutions(states);
    var all := Penalised(states, |states|);
    forall k | 0 <= k < |states|
      ensures all[k].pollution == states[k].pollution && all[k].population == states[k].population
      ensures all[k].happiness <= states[k].happiness && all[k].hasRebelled == states[k].hasRebelled
    {
      var r := RegionalPenalty(states[k], Regional(p, k));
      assert all[k] == r;
    }
  }

  /** Ecosystem health after pollution: health minus int(global pollution /
      5), kept within 0..100. With non-negative pollution it never rises. */
  function HealthAfter(health: real, globalPollution: real): (h: real)
    ensures 0.0 <= h <= 100.0
    ensures 0.0 <= health <= 100.0 && globalPollution >= 0.0 ==> h <= health
    ensures 0.0 <= health <= 100.0 && 0.0 <= globalPollution < 5.0 ==> h == health
  {
    Max(0.0, Min(100.0, health - Trunc(globalPollution / 5.0) as real))
  }

  // ---------------------------------------------------------------- targets

  /** Position j of a sequence from which position i was removed, read in
      the original sequence. */
  function Skip(j: nat, i: nat): (k: nat)
    ensures k != i && (k < i <==> j < i)
  {
    if j < i then j else j + 1
  }

  /** `order` without its i-th element. */
  function Without<K>(order: seq<K>, i: nat): (rest: seq<K>)
    requires i < |order|
    ensures |rest| == |order| - 1
    ensures forall j :: 0 <= j < |rest| ==> rest[j] == order[Skip(j, i)]
  {
    order[..i] + order[i + 1..]
  }

  /** The first maximal key once the `first` one is removed is maximal, and
      first among the maximal ones, over every other position of `order`. */
  lemma SecondBest<K>(vals: map<K, real>, order: seq<K>, first: nat)
    requires |order| >= 2 && Covers(vals, order) && first < |order|
    ensures Covers(vals, Without(order, first))
    ensures var s := Skip(ArgMax(vals, Without(order, first)), first);
            && s < |order|
            && (forall j :: 0 <= j < |order| && j != first ==> vals[order[j]] <= vals[order[s]])
            && (forall j :: 0 <= j < s && j != first ==> vals[order[j]] < vals[order[s]])
  {
    var rest := Without(order, first);
    var k := ArgMax(vals, rest);
    var s := Skip(k, first);
    forall j | 0 <= j < |order| && j != first
      ensures vals[order[j]] <= vals[order[s]]
    {
      var j' := if j < first then j else j - 1;
      assert rest[j'] == order[j];
    }
    forall j | 0 <= j < s && j != first
      ensures vals[order[j]] < vals[order[s]]
    {
      var j' := if j < first then j else j - 1;
      assert j' < k;
      assert rest[j'] == order[j];
    }
  }

  /** The countries a flood strikes: the first two of the countries sorted by
      regional pollution, highest first, with ties kept in their original
      order. Given as indices into `order`. */
  function FloodTargets<K>(vals: map<K, real>, order: seq<K>): (t: seq<nat>)
    requires |order| > 0 && Covers(vals, order)
    ensures |t| == IntMin(2, |order|)
    ensures forall x :: 0 <= x < |t| ==> t[x] < |order|
    ensures |t| == 2 ==> t[0] != t[1]
  {
    var first := ArgMax(vals, order);
    if |order| == 1 then [first]
    else [first, Skip(ArgMax(vals, Without(order, first)), first)]
  }

  /** The flood targets are the most polluted countries, in the order a
      stable sort from highest to lowest puts them, and they are distinct. */
  lemma FloodTargetsMost<K>(vals: map<K, real>, order: seq<K>)
    requires |order| > 0 && Covers(vals, order)
    ensures var t := FloodTargets(vals, order);
            && (forall j :: 0 <= j < |order| ==> vals[order[j]] <= vals[order[t[0]]])
            && (forall j :: 0 <= j < t[0] ==> vals[order[j]] < vals[order[t[0]]])
            && (|t| == 2 ==>
                  forall j :: 0 <= j < |order| && j != t[0] ==> vals[order[j]] <= vals[order[t[1]]])
            && (|t| == 2 ==>
                  forall j :: 0 <= j < t[1] && j != t[0] ==> vals[order[j]] < vals[order[t[1]]])
  {
    if |order| >= 2 {
      SecondBest(vals, order, ArgMax(vals, order));
    }
  }

  // ------------------------------------------------------ disasters in turn

  /** The random outcomes of one `trigger_disasters`: the disease, earthquake
      and flood coins, and the country the earthquake strikes. */
  datatype DisasterDraw = DisasterDraw(diseaseCoin: real, quakeCoin: real, quakeTarget: nat, floodCoin: real)

  /** The disease phase of `trigger_disasters` on the countries' states. */
  function DiseaseStep(states: seq<CountryState>, names: seq<string>, regional: map<string, real>,
                       alarm: int, coin: real): (r: seq<CountryState>)
    requires |states| == |names| > 0 && Covers(regional, names) && AllSound(states)
    ensures |r| == |states| && AllSound(r)
  {
    if alarm >= 1 || coin < 0.1 then
      var w := ArgMax(regional, names);
      states[w := Disease(states[w])]
    else states
  }

  /** Disease, when the alarm is at least 1 or its coin falls below 0.1,
      strikes the first country of highest regional pollution and no other. */
  lemma {:induction false} DiseaseStrikesMost(states: seq<CountryState>, names: seq<string>,
                                              regional: map<string, real>, alarm: int, coin: real)
    requires |states| == |names| > 0 && Covers(regional, names) && AllSound(states)
    ensures var r := DiseaseStep(states, names, regional, alarm, coin);
            && NoGain(states, r)
            && (!(alarm >= 1 || coin < 0.1) ==> r == states)
            && forall i :: 0 <= i < |r| && r[i] != states[i] ==>
                 && (alarm >= 1 || coin < 0.1)
                 && r[i] == Disease(states[i])
                 && (forall j :: 0 <= j < |names| ==> regional[names[j]] <= regional[names[i]])
                 && (forall j :: 0 <= j < i ==> regional[names[j]] < regional[names[i]])
  {
    var r := DiseaseStep(states, names, regional, alarm, coin);
    if alarm >= 1 || coin < 0.1 {
      var w := ArgMax(regional, names);
      assert r == states[w := Disease(states[w])];
    }
  }

  /** The earthquake phase of `trigger_disasters` on the countries' states. */
  function QuakeStep(states: seq<CountryState>, alarm: int, coin: real, target: nat): (r: seq<CountryState>)
    requires target < |states| && AllSound(states)
    ensures |r| == |states| && AllSound(r)
  {
    if alarm >= 2 || coin < 0.05 then states[target := Earthquake(states[target])]
    else states
  }

  /** An earthquake, when the alarm is at least 2 or its coin falls below
      0.05, strikes the drawn country and no other. */
  lemma {:induction false} QuakeStrikesTarget(states: seq<CountryState>, alarm: int, coin: real, target: nat)
    requires target < |states| && AllSound(states)
    ensures var r := QuakeStep(states, alarm, coin, target);
            && NoGain(states, r)
            && (!(alarm >= 2 || coin < 0.05) ==> r == states)
            && (forall i :: 0 <= i < |r| && i != target ==> r[i] == states[i])
            && (alarm >= 2 || coin < 0.05 ==> r[target] == Earthquake(states[target]))
  {
    var r := QuakeStep(states, alarm, coin, target);
    if alarm >= 2 || coin < 0.05 {
      assert r == states[target := Earthquake(states[target])];
    }
  }

  /** The flood phase of `trigger_disasters` on the countries' states. */
  function FloodStep(states: seq<CountryState>, names: seq<string>, regional: map<string, real>,
                     alarm: int, coin: real): (r: seq<CountryState>)
    requires |states| == |names| > 0 && Covers(regional, names) && AllSound(states)
    ensures |r| == |states| && AllSound(r)
  {
    if alarm >= 3 || coin < 0.02 then
      var t := FloodTargets(regional, names);
      FloodFirst(states, t, |t|)
    else states
  }

  /** The states after a flood strikes the first k of the targets, in turn. */
  function FloodFirst(states: seq<CountryState>, targets: seq<nat>, k: nat): (r: seq<CountryState>)
    requires AllSound(states) && k <= |targets|
    requires forall x :: 0 <= x < |targets| ==> targets[x] < |states|
    ensures |r| == |states| && AllSound(r)
  {
    if k == 0 then states else FloodAt(FloodFirst(states, targets, k - 1), targets[k - 1])
  }

  /** A flood, when the alarm is 3 or its coin falls below 0.02, strikes the
      countries FloodTargets picks (the two of highest regional pollution, or
      the only one) and no other. */
  lemma {:induction false} FloodStrikesTargets(states: seq<CountryState>, names: seq<string>,
                                               regional: map<string, real>, alarm: int, coin: real)
    requires |states| == |names| > 0 && Covers(regional, names) && AllSound(states)
    ensures var r := FloodStep(states, names, regional, alarm, coin);
            && NoGain(states, r)
            && (!(alarm >= 3 || coin < 0.02) ==> r == states)
            && forall i :: 0 <= i < |r| && r[i] != states[i] ==>
                 && (alarm >= 3 || coin < 0.02)
                 && r[i] == Flood(states[i])
                 && i in FloodTargets(regional, names)
  {
    if alarm >= 3 || coin < 0.02 {
      var t := FloodTargets(regional, names);
      FloodedAt(states, t);
      var r := FloodFirst(states, t, |t|);
      forall i | 0 <= i < |states|
        ensures r[i].happiness <= states[i].happiness && r[i].population <= states[i].population
        ensures r[i] != states[i] ==> r[i] == Flood(states[i]) && i in t
      {
        if i == t[0] || (|t| == 2 && i == t[1]) {
          assert r[i] == Flood(states[i]);
        } else {
          assert r[i] == states[i];
        }
      }
    }
  }

  /** Flooding the (distinct) targets in turn floods exactly the targets. */
  lemma FloodedAt(states: seq<CountryState>, t: seq<nat>)
    requires AllSound(states) && 0 < |t| <= 2
    requires forall x :: 0 <= x < |t| ==> t[x] < |states|
    requires |t| == 2 ==> t[0] != t[1]
    ensures var r := FloodFirst(states, t, |t|);
            forall i :: 0 <= i < |states| ==>
              r[i] == if i == t[0] || (|t| == 2 && i == t[1]) then Flood(states[i]) else states[i]
  {
    var once := FloodAt(states, t[0]);
    assert FloodFirst(states, t, 1) == once;
    if |t| == 2 {
      var twice := FloodAt(once, t[1]);
      assert FloodFirst(states, t, 2) == twice;
      forall i | 0 <= i < |states|
        ensures twice[i] == if i == t[0] || i == t[1] then Flood(states[i]) else states[i]
      {
        if i == t[1] {
          assert once[i] == states[i];
        }
      }
    }
  }

  /** The states with a flood striking the i-th country. */
  function FloodAt(states: seq<CountryState>, i: nat): (r: seq<CountryState>)
    requires i < |states| && AllSound(states)
    ensures |r| == |states| && AllSound(r)
  {
    states[i := Flood(states[i])]
  }

  /** `trigger_disasters` on the countries' states: disease, then earthquake,
      then flood, each on the states the previous one left. */
  function Disasters(states: seq<CountryState>, names: seq<string>, regional: map<string, real>,
                     alarm: int, d: DisasterDraw): (r: seq<CountryState>)
    requires |states| == |names| > 0 && Covers(regional, names) && AllSound(states)
    requires d.quakeTarget < |states|
    ensures |r| == |states| && AllSound(r)
  {
    var sick := DiseaseStep(states, names, regional, alarm, d.diseaseCoin);
    var shaken := QuakeStep(sick, alarm, d.quakeCoin, d.quakeTarget);
    FloodStep(shaken, names, regional, alarm, d.floodCoin)
  }

  /** Disasters never raise a country's happiness or population, and with
      the alarm at 0 and no coin falling low they change nothing. */
  lemma {:induction false} DisastersNoGain(states: seq<CountryState>, names: seq<string>,
                                           regional: map<string, real>, alarm: int, d: DisasterDraw)
    requires |states| == |names| > 0 && Covers(regional, names) && AllSound(states)
    requires d.quakeTarget < |states|
    ensures var r := Disasters(states, names, regional, alarm, d);
            && NoGain(states, r)
            && ((alarm < 1 && d.diseaseCoin >= 0.1 && alarm < 2 && d.quakeCoin >= 0.05
                 && alarm < 3 && d.floodCoin >= 0.02) ==> r == states)
  {
    var sick := DiseaseStep(states, names, regional, alarm, d.diseaseCoin);
    var shaken := QuakeStep(sick, alarm, d.quakeCoin, d.quakeTarget);
    var r := FloodStep(shaken, names, regional, alarm, d.floodCoin);
    assert NoGain(states, sick) && (!(alarm >= 1 || d.diseaseCoin < 0.1) ==> sick == states) by {
      DiseaseStrikesMost(states, names, regional, alarm, d.diseaseCoin);
    }
    assert NoGain(sick, shaken) && (!(alarm >= 2 || d.quakeCoin < 0.05) ==> shaken == sick) by {
      QuakeStrikesTarget(sick, alarm, d.quakeCoin, d.quakeTarget);
    }
    assert NoGain(shaken, r) && (!(alarm >= 3 || d.floodCoin < 0.02) ==> r == shaken) by {
      FloodStrikesTargets(shaken, names, regional, alarm, d.floodCoin);
    }
    assert Disasters(states, names, regional, alarm, d) == r;
    forall i | 0 <= i < |states|
      ensures r[i].happiness <= states[i].happiness && r[i].population <= states[i].population
    {
      assert r[i].happiness <= shaken[i].happiness <= sick[i].happiness <= states[i].happiness;
      assert r[i].population <= shaken[i].population <= sick[i].population <= states[i].population;
    }
  }
}
