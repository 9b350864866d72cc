// The tabular Q-learning agent of each country: state discretisation,
// epsilon-greedy choice and the one-step temporal-difference update, over
// tables that give every unseen state a zero-valued row.

module Learning {
  import opened Basics

  /** The three tables an agent keeps, one per kind of decision. */
  datatype TableKind = Invest | Agree | War

  /** Every action of every table; investment actions double as the keys of
      a country's investment accumulator. */
  datatype Action = Economy | Environment | Infrastructure | Join | Refuse | Attack | Peace

  /** The actions of a table, in the key order of its default row. */
  function Domain(k: TableKind): (d: seq<Action>)
    ensures |d| > 0
  {
    match k
    case Invest => [Economy, Environment, Infrastructure]
    case Agree => [Join, Refuse]
    case War => [Attack, Peace]
  }

  /** The actions of a table as a set: the key set of its default row.
      Spelled out so that key-set equalities need no unfolding of Domain;
      DomainSetIsDomain ties the two. */
  function DomainSet(k: TableKind): (d: set<Action>)
  {
    match k
    case Invest => {Economy, Environment, Infrastructure}
    case Agree => {Join, Refuse}
    case War => {Attack, Peace}
  }

  /** DomainSet holds exactly the actions Domain lists. */
  lemma DomainSetIsDomain(k: TableKind)
    ensures forall a :: a in DomainSet(k) <==> a in Domain(k)
  {
  }

  /** Learning rate, discount and exploration probability (constant for the run). */
  const Alpha: real := 0.1
  const Gamma: real := 0.9
  const Epsilon: real := 0.3

  /** A discretised state: the six bins, and the seventh (tension) bin
      present only for war decisions. */
  datatype State = State(happiness: int, pollution: int, infrastructure: int, production: int,
                         government: int, health: int, tension: Option<int>)
  {
    /** The components as the tuple of six or seven integers. */
    function Components(): (c: seq<int>)
      ensures |c| == if tension.Some? then 7 else 6
    {
      [happiness, pollution, infrastructure, production, government, health]
        + (if tension.Some? then [tension.value] else [])
    }
  }
  type Row = map<Action, real>
  type QTable = map<State, Row>

  /** `min(5, x // 20)`: the bin of a quantity, floor division. */
  function Bin(x: real): (b: int)
    ensures b <= 5
    ensures x >= 0.0 ==> 0 <= b
    ensures b == 5 <==> x >= 100.0
    ensures b < 5 ==> 20.0 * b as real <= x < 20.0 * (b + 1) as real
  {
    var q := (x / 20.0).Floor;
    if q < 5 then q else 5
  }

  /** `min(5, int(production) // 50)`: production is truncated before the
      integer floor division. */
  function ProductionBucket(production: real): (b: int)
    ensures b <= 5
    ensures production >= 0.0 ==> 0 <= b
    ensures b == 5 <==> production >= 250.0
  {
    var q := Trunc(production) / 50;
    if q < 5 then q else 5
  }

  /** `min(5, max(0, (tension - 50) // 10))`: the number of whole steps of
      ten above 50, capped at five. */
  function TensionBucket(tension: int): (b: int)
    ensures 0 <= b <= 5
    ensures tension <= 59 ==> b == 0
    ensures tension >= 100 ==> b == 5
    ensures 0 < b ==> 50 + 10 * b <= tension
    ensures b < 5 ==> tension < 60 + 10 * b
  {
    var q := (tension - 50) / 10;
    if q < 0 then 0 else if q < 5 then q else 5
  }

  /** The discretised state of a country: happiness, pollution,
      infrastructure, production, government and ecosystem health, plus a
      tension bin when a tension is given. */
  function GetState(happiness: real, pollution: real, infrastructure: real, production: real,
                    government: Government, health: real, tension: Option<int>): (s: State)
    ensures |s.Components()| == if tension.Some? then 7 else 6
    ensures s.government == if government == Right then 0 else 1
    ensures forall i :: 0 <= i < |s.Components()| ==> s.Components()[i] <= 5
    ensures happiness >= 0.0 && pollution >= 0.0 && infrastructure >= 0.0
            && production >= 0.0 && health >= 0.0 ==>
              forall i :: 0 <= i < |s.Components()| ==> 0 <= s.Components()[i]
    ensures tension.Some? ==> s.tension == Some(TensionBucket(tension.value))
    ensures tension.Some? && tension.value <= 59 ==> s.tension == Some(0)
    ensures tension.Some? && tension.value >= 100 ==> s.tension == Some(5)
  {
    State(Bin(happiness), Bin(pollution), Bin(infrastructure), ProductionBucket(production),
          if government == Right then 0 else 1, Bin(health),
          match tension
          case None => None
          case Some(t) => Some(TensionBucket(t)))
  }

  /** The row a table creates for a state it has not seen. */
  function ZeroRow(k: TableKind): (row: Row)
    ensures row.Keys == DomainSet(k)
    ensures forall a :: a in row ==> row[a] == 0.0
  {
    map a | a in Domain(k) :: 0.0
  }

  /** Every row of the table has exactly the actions of its domain. */
  predicate WellFormed(t: QTable, k: TableKind)
  {
    forall s :: s in t ==> t[s].Keys == DomainSet(k)
  }

  /** Reading a row with defaulting: the stored row, or the zero row. */
  function RowOf(t: QTable, k: TableKind, s: State): (row: Row)
    requires WellFormed(t, k)
    ensures row.Keys == DomainSet(k)
    ensures s !in t ==> forall a :: a in Domain(k) ==> row[a] == 0.0
    ensures s in t ==> row == t[s]
  {
    if s in t then t[s] else ZeroRow(k)
  }

  /** The table after the first read of `s`: its row is inserted if missing. */
  function Touched(t: QTable, k: TableKind, s: State): (t': QTable)
    requires WellFormed(t, k)
    ensures WellFormed(t', k)
    ensures forall x :: x in t' <==> x in t || x == s
    ensures forall s' :: s' in t ==> t'[s'] == t[s']
    ensures t'[s] == RowOf(t, k, s)
  {
    if s in t then t else t[s := ZeroRow(k)]
  }

  /** Epsilon-greedy choice over a row: when the coin falls below Epsilon,
      the drawn action `Domain(k)[pick]`; otherwise the first action of
      maximal value in domain order. */
  function Choose(row: Row, k: TableKind, coin: real, pick: nat): (a: Action)
    requires row.Keys == DomainSet(k)
    requires pick < |Domain(k)|
    ensures a in Domain(k)
    ensures coin < Epsilon ==> a == Domain(k)[pick]
    ensures coin >= Epsilon ==> forall b :: b in Domain(k) ==> row[b] <= row[a]
    ensures coin >= Epsilon ==>
              exists i :: 0 <= i < |Domain(k)| && Domain(k)[i] == a &&
                forall j :: 0 <= j < i ==> row[Domain(k)[j]] < row[a]
  {
    if coin < Epsilon then Domain(k)[pick]
    else
      var i := ArgMax(row, Domain(k));
      assert forall b :: b in Domain(k) ==> exists j :: 0 <= j < |Domain(k)| && Domain(k)[j] == b;
      Domain(k)[i]
  }

  /** One temporal-difference step from value `q` toward `reward + Gamma * m`. */
  function TdStep(q: real, reward: real, m: real): real
  {
    q + Alpha * (reward + Gamma * m - q)
  }

  /** The table after `update`: the row of `next` is read (and inserted),
      its largest value taken, then the row of `s` is read (and inserted) and
      its entry for `a` moved one step. */
  function Updated(t: QTable, k: TableKind, s: State, a: Action, reward: real, next: State): (t': QTable)
    requires WellFormed(t, k) && a in Domain(k)
    ensures WellFormed(t', k)
    ensures forall x :: x in t' <==> x in t || x == s || x == next
  {
    var t1 := Touched(t, k, next);
    var m := MaxOver(t1[next], Domain(k));
    var t2 := Touched(t1, k, s);
    t2[s := t2[s][a := TdStep(t2[s][a], reward, m)]]
  }

  /** Unfolds Updated along the two reads it performs. */
  lemma UpdatedUnfold(t: QTable, k: TableKind, s: State, a: Action, reward: real, next: State, t1: QTable, t2: QTable)
    requires WellFormed(t, k) && a in Domain(k)
    requires t1 == Touched(t, k, next) && t2 == Touched(t1, k, s)
    ensures Updated(t, k, s, a, reward, next) == t2[s := t2[s][a := TdStep(t2[s][a], reward, MaxOver(t1[next], Domain(k)))]]
  {}

  /** The updated value is `q + Alpha * (reward + Gamma * m - q)`, where q is
      the old value of `Q[s][a]` (zero if unseen) and m the largest value of
      the row of `next` (zero if unseen). */
  lemma UpdateRule(t: QTable, k: TableKind, s: State, a: Action, reward: real, next: State)
    requires WellFormed(t, k) && a in Domain(k)
    ensures var q := RowOf(t, k, s)[a];
            var m := MaxOver(RowOf(t, k, next), Domain(k));
            RowOf(Updated(t, k, s, a, reward, next), k, s)[a] == q + Alpha * (reward + Gamma * m - q)
  {
  }

  /** The update changes no other value: every other (state, action) pair
      reads the same, with defaulting, before and after. */
  lemma UpdateFrame(t: QTable, k: TableKind, s: State, a: Action, reward: real, next: State)
    requires WellFormed(t, k) && a in Domain(k)
    ensures forall s', b :: b in Domain(k) && (s' != s || b != a) ==>
              RowOf(Updated(t, k, s, a, reward, next), k, s')[b] == RowOf(t, k, s')[b]
  {
  }

  /** The per-country agent: three tables, mutated in place by choosing
      (which inserts the row of the state read) and by updating. */
  class Agent {
    var investQ: QTable
    var agreeQ: QTable
    var warQ: QTable

    ghost predicate Valid()
      reads this
    {
      WellFormed(investQ, Invest) && WellFormed(agreeQ, Agree) && WellFormed(warQ, War)
    }

    constructor ()
      ensures Valid()
      ensures investQ == map[] && agreeQ == map[] && warQ == map[]
    {
      investQ, agreeQ, warQ := map[], map[], map[];
    }

    function Table(k: TableKind): QTable
      reads this
    {
      match k
      case Invest => investQ
      case Agree => agreeQ
      case War => warQ
    }

    method SetTable(k: TableKind, t: QTable)
      requires Valid() && WellFormed(t, k)
      modifies this
      ensures Valid()
      ensures Table(k) == t
      ensures k != Invest ==> investQ == old(investQ)
      ensures k != Agree ==> agreeQ == old(agreeQ)
      ensures k != War ==> warQ == old(warQ)
    {
      match k
      case Invest => investQ := t;
      case Agree => agreeQ := t;
      case War => warQ := t;
    }

    /** Reading `Q[s]` through the defaultdict: inserts the zero row when unseen. */
    method Touch(k: TableKind, s: State)
      requires Valid()
      modifies this
      ensures Valid()
      ensures Table(k) == Touched(old(Table(k)), k, s)
      ensures k != Invest ==> investQ == old(investQ)
      ensures k != Agree ==> agreeQ == old(agreeQ)
      ensures k != War ==> warQ == old(warQ)
    {
      var t := Table(k);
      if s !in t {
        SetTable(k, t[s := ZeroRow(k)]);
      }
    }

    /** Epsilon-greedy choice for `s`; reading the row inserts it when unseen. */
    method ChooseAction(k: TableKind, s: State, coin: real, pick: nat) returns (a: Action)
      requires Valid() && pick < |Domain(k)|
      modifies this
      ensures Valid()
      ensures Table(k) == Touched(old(Table(k)), k, s)
      ensures k != Invest ==> investQ == old(investQ)
      ensures k != Agree ==> agreeQ == old(agreeQ)
      ensures k != War ==> warQ == old(warQ)
      ensures a == Choose(RowOf(old(Table(k)), k, s), k, coin, pick)
    {
      Touch(k, s);
      var row := Table(k)[s];
      if coin < Epsilon {
        a := Domain(k)[pick];
      } else {
        a := Domain(k)[ArgMax(row, Domain(k))];
      }
    }

    /** `Q[s][a] += Alpha * (reward + Gamma * max(Q[next].values()) - Q[s][a])`. */
    method Update(k: TableKind, s: State, a: Action, reward: real, next: State)
      requires Valid() && a in Domain(k)
      modifies this
      ensures Valid()
      ensures Table(k) == Updated(old(Table(k)), k, s, a, reward, next)
      ensures k != Invest ==> investQ == old(investQ)
      ensures k != Agree ==> agreeQ == old(agreeQ)
      ensures k != War ==> warQ == old(warQ)
    {
      ghost var t0 := Table(k);
      Touch(k, next);
      ghost var t1 := Table(k);
      var maxNext := MaxOver(Table(k)[next], Domain(k));
      Touch(k, s);
      var t := Table(k);
      var q := t[s][a];
      var v := q + Alpha * (reward + Gamma * maxNext - q);
      assert v == TdStep(q, reward, maxNext);
      var t' := t[s := t[s][a := v]];
      assert t' == Updated(t0, k, s, a, reward, next) by {
        UpdatedUnfold(t0, k, s, a, reward, next, t1, t);
        assert maxNext == MaxOver(t1[next], Domain(k));
      }
      SetTable(k, t');
    }
  }
}
