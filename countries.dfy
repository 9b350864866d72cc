// The state of one country as a value, the invariant every rule keeps, and
// the diplomacy rules: tension toward a partner (50 when unset), clamped
// updates, and the three-way status classification.

module Countries {
  import opened Basics
  import opened Learning

  /** The four natural resources, in the key order of a country's dictionary. */
  datatype Resource = Oil | Coal | Gas | Forest

  const ResourceOrder: seq<Resource> := [Oil, Coal, Gas, Forest]

  /** The position of a resource in the key order. */
  function Rank(x: Resource): (i: nat)
    ensures i < |ResourceOrder| && ResourceOrder[i] == x
  {
    match x
    case Oil => 0
    case Coal => 1
    case Gas => 2
    case Forest => 3
  }

  /** Every field of a country that the rules read or write. Investments are
      keyed by the three investment actions. */
  datatype CountryState = CountryState(
    population: int,
    money: int,
    happiness: real,
    production: real,
    techLevel: int,
    educationLevel: int,
    militaryPower: int,
    pollution: real,
    infrastructure: real,
    rebellionRisk: real,
    ideology: int,
    government: Government,
    agreement: int,
    resources: map<Resource, int>,
    investments: map<Action, int>,
    tension: map<string, int>,
    year: int,
    hasRebelled: bool)

  /** The bounds every rule keeps: population, pollution, production and
      rebellion risk never negative, happiness and infrastructure within
      0..100, technology at least 1, all four resources present and never
      negative, the three investment keys present, every tension within
      0..100. */
  predicate Sound(s: CountryState)
  {
    && s.population >= 0
    && 0.0 <= s.happiness <= 100.0
    && s.production >= 0.0
    && s.techLevel >= 1
    && s.educationLevel >= 1
    && s.militaryPower >= 0
    && s.pollution >= 0.0
    && 0.0 <= s.infrastructure <= 100.0
    && s.rebellionRisk >= 0.0
    && (s.agreement == 0 || s.agreement == 1)
    && (forall r: Resource :: r in s.resources && s.resources[r] >= 0)
    && s.investments.Keys == DomainSet(Invest)
    && (forall n :: n in s.tension ==> 0 <= s.tension[n] <= 100)
  }

  /** The regional pollution record with `amount` added to one country's
      entry; a name without an entry leaves the record as it is. */
  function Raised(regional: map<string, real>, name: string, amount: real): (r: map<string, real>)
    ensures r.Keys == regional.Keys
    ensures name in regional ==> r[name] == regional[name] + amount
    ensures forall n :: n in regional && n != name ==> r[n] == regional[n]
  {
    if name in regional then regional[name := regional[name] + amount] else regional
  }

  /** Every named entry raised by the same amount, in the order of the
      names. */
  function RaisedAll(regional: map<string, real>, names: seq<string>, amount: real): (r: map<string, real>)
    ensures r.Keys == regional.Keys
  {
    if |names| == 0 then regional
    else Raised(RaisedAll(regional, names[..|names| - 1], amount), names[|names| - 1], amount)
  }

  /** Raising the entries of one more name is one more raise. */
  lemma RaisedAllStep(regional: map<string, real>, names: seq<string>, i: nat, amount: real)
    requires i < |names|
    ensures RaisedAll(regional, names[..i + 1], amount)
            == Raised(RaisedAll(regional, names[..i], amount), names[i], amount)
  {
    assert names[..i + 1][..i] == names[..i];
  }

  /** With distinct names, each named entry present rises by the amount once
      and every other entry is kept. */
  lemma {:induction false} RaisedAllAt(regional: map<string, real>, names: seq<string>, amount: real)
    requires forall j, k :: 0 <= j < k < |names| ==> names[j] != names[k]
    ensures forall n :: n in regional && n in names ==> RaisedAll(regional, names, amount)[n] == regional[n] + amount
    ensures forall n :: n in regional && n !in names ==> RaisedAll(regional, names, amount)[n] == regional[n]
  {
    if |names| > 0 {
      var front := names[..|names| - 1];
      RaisedAllAt(regional, front, amount);
      forall n | n in names
        ensures n == names[|names| - 1] || n in front
      {
        var k :| 0 <= k < |names| && names[k] == n;
        if k < |names| - 1 {
          assert front[k] == n;
        }
      }
    }
  }

  /** Two raises of the same entry are one raise by their sum. */
  lemma RaisedTwice(regional: map<string, real>, name: string, a: real, b: real)
    ensures Raised(Raised(regional, name, a), name, b) == Raised(regional, name, a + b)
  {
  }

  /** Every state in the sequence keeps the bounds. */
  predicate AllSound(states: seq<CountryState>)
  {
    forall i :: 0 <= i < |states| ==> Sound(states[i])
  }

  /** No country is happier or more populous after than before. */
  predicate NoGain(before: seq<CountryState>, after: seq<CountryState>)
    requires |before| == |after|
  {
    forall i :: 0 <= i < |before| ==>
      after[i].happiness <= before[i].happiness && after[i].population <= before[i].population
  }

  datatype Status = Friendly | Neutral | Hostile

  /** `tension_score.get(other, 50)`. */
  function TensionToward(s: CountryState, other: string): (t: int)
    ensures other in s.tension ==> t == s.tension[other]
    ensures other !in s.tension ==> t == 50
    ensures Sound(s) ==> 0 <= t <= 100
  {
    if other in s.tension then s.tension[other] else 50
  }

  /** Friendly below 30, hostile above 70, neutral in between. */
  function StatusOf(tension: int): (st: Status)
    ensures st == Friendly <==> tension < 30
    ensures st == Hostile <==> tension > 70
    ensures st == Neutral <==> 30 <= tension <= 70
  {
    if tension < 30 then Friendly
    else if tension > 70 then Hostile
    else Neutral
  }

  function DiplomaticStatus(s: CountryState, other: string): Status
  {
    StatusOf(TensionToward(s, other))
  }

  /** A partner without a tension entry is neutral (its tension reads as 50). */
  lemma UnsetPartnerIsNeutral(s: CountryState, other: string)
    requires other !in s.tension
    ensures DiplomaticStatus(s, other) == Neutral
  {
  }

  /** `update_tension`: the partner's entry becomes its old value (50 when
      absent) plus the change, clamped to 0..100; nothing else changes. */
  function WithTension(s: CountryState, partner: string, change: int): (r: CountryState)
    ensures r == s.(tension := r.tension)
    ensures partner in r.tension
    ensures r.tension[partner] == Clamp(TensionToward(s, partner) + change, 0, 100)
    ensures forall n :: n != partner ==> (n in r.tension <==> n in s.tension)
    ensures forall n :: n != partner && n in s.tension ==> r.tension[n] == s.tension[n]
    ensures Sound(s) ==> Sound(r)
  {
    s.(tension := s.tension[partner := Clamp(TensionToward(s, partner) + change, 0, 100)])
  }

  /** Two countries at tension 60: a rise of 15 gives tension 75, which
      reads as hostile. */
  lemma HostileAfterRise(s: CountryState, partner: string)
    requires TensionToward(s, partner) == 60
    ensures TensionToward(WithTension(s, partner, 15), partner) == 75
    ensures DiplomaticStatus(WithTension(s, partner, 15), partner) == Hostile
  {
  }
}
