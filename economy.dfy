// A country's economic decisions as values: taxation, trade with a partner,
// the environment agreement (joining, refusing, and the ideology alignment
// with countries that already signed) and the three kinds of investment,
// together with the rewards the learning agent receives for them.

module Economy {
  import opened Basics
  import opened Learning
  import opened Countries

  // --------------------------------------------------------------- taxes

  /** Tax income: int(population * rate), the rate 5% for a right
      government and 10% for a left one; a right government with
      infrastructure above 70 gets int(income * 1.10). */
  function TaxIncome(s: CountryState): (income: int)
    requires s.population >= 0
    ensures income >= 0
  {
    var rate := if s.government == Right then 0.05 else 0.10;
    var income := Trunc(s.population as real * rate);
    if s.government == Right && s.infrastructure > 70.0 then Trunc(income as real * 1.10)
    else income
  }

  /** A left government never collects less than a right one from the same
      population, whatever the infrastructure bonus. */
  lemma LeftTaxesAtLeastRight(s: CountryState)
    requires s.population >= 0
    ensures TaxIncome(s.(government := Left)) >= TaxIncome(s.(government := Right))
  {
    var p := s.population as real;
    var base := Trunc(p * 0.05);
    assert base as real * 1.10 <= p * 0.055;
  }

  /** The happiness taxes cost: 2 under a right government, 5 under a left
      one, 3 more while global pollution exceeds 50. */
  function TaxHappinessLoss(g: Government, globalPollution: real): (loss: real)
    ensures g == Right ==> loss == if globalPollution > 50.0 then 5.0 else 2.0
    ensures g == Left ==> loss == if globalPollution > 50.0 then 8.0 else 5.0
  {
    (if g == Right then 2.0 else 5.0) + (if globalPollution > 50.0 then 3.0 else 0.0)
  }

  /** `collect_taxes`: money grows by the tax income, happiness falls by the
      loss but not below 0; nothing else changes. */
  function Taxed(s: CountryState, globalPollution: real): (r: CountryState)
    requires Sound(s)
    ensures Sound(r)
    ensures r == s.(money := r.money, happiness := r.happiness)
    ensures r.money >= s.money && r.money - s.money == TaxIncome(s)
    ensures r.happiness == Max(0.0, s.happiness - TaxHappinessLoss(s.government, globalPollution))
  {
    s.(money := s.money + TaxIncome(s),
       happiness := Max(0.0, s.happiness - TaxHappinessLoss(s.government, globalPollution)))
  }

  // --------------------------------------------------------------- trade

  /** The stock a country aims to hold of each resource. */
  function Target(x: Resource): int
  {
    match x
    case Oil => 30
    case Coal => 20
    case Gas => 20
    case Forest => 50
  }

  /** The shortfall of a resource against its target. */
  function Need(s: CountryState, x: Resource): int
    requires Sound(s)
  {
    Target(x) - s.resources[x]
  }

  /** The shortfalls as the dictionary `trade_resources` builds. */
  function Needs(s: CountryState): (n: map<Resource, real>)
    requires Sound(s)
    ensures Covers(n, ResourceOrder)
    ensures forall x: Resource :: x in n && n[x] == Need(s, x) as real
  {
    map x: Resource | x in s.resources :: Need(s, x) as real
  }

  /** The resource a country tries to buy: Python's max over the needs
      dictionary, whose keys come in the order oil, coal, gas, forest. */
  function Wanted(s: CountryState): Resource
    requires Sound(s)
  {
    ResourceOrder[ArgMax(Needs(s), ResourceOrder)]
  }

  /** The wanted resource has the largest shortfall, and every resource
      before it in key order has a strictly smaller one: ties go to the
      first of oil, coal, gas, forest. */
  lemma WantedIsFirstLargest(s: CountryState)
    requires Sound(s)
    ensures forall y: Resource :: Need(s, y) <= Need(s, Wanted(s))
    ensures forall y: Resource :: Rank(y) < Rank(Wanted(s)) ==> Need(s, y) < Need(s, Wanted(s))
  {
    var n := Needs(s);
    var i := ArgMax(n, ResourceOrder);
    var x := ResourceOrder[i];
    assert Rank(x) == i;
    forall y: Resource
      ensures Need(s, y) <= Need(s, x)
      ensures Rank(y) < i ==> Need(s, y) < Need(s, x)
    {
      assert ResourceOrder[Rank(y)] == y;
      assert n[ResourceOrder[Rank(y)]] <= n[x];
    }
  }

  /** The pollution buying a unit batch of a resource adds. */
  function TradePollution(x: Resource): (p: real)
    ensures 1.0 <= p <= 6.0
  {
    match x
    case Oil => 4.0
    case Coal => 6.0
    case Gas => 2.0
    case Forest => 1.0
  }

  /** The chance a trade is accepted: 0.5 plus (100 - ideological distance) /
      200, plus 0.1 when the buyer is friendly toward the seller. */
  function TradeChance(buyer: CountryState, seller: CountryState, sellerName: string): real
  {
    var distance := buyer.ideology - seller.ideology;
    var relation := 100 - (if distance < 0 then -distance else distance);
    var chance := 0.5 + relation as real / 200.0;
    if DiplomaticStatus(buyer, sellerName) == Friendly then chance + 0.1 else chance
  }

  datatype TradePlan =
    | NoTrade                                  // nothing happens
    | Rejected                                 // both tensions rise by 5
    | Deal(resource: Resource, amount: int)    // goods for money

  /** The course of `trade_resources`. No trade with oneself or while
      ecosystem health is below 30, when the wanted resource is not short,
      when the seller holds fewer than 10 of it, or when the seller's money
      is below 1000 per unit of the amount (the smaller of the drawn quantity
      and the seller's stock). Otherwise the trade is rejected when the coin
      exceeds the chance, and made when it does not. */
  function PlanTrade(buyer: CountryState, seller: CountryState, sellerName: string,
                     sameCountry: bool, health: real, quantity: int, coin: real): (p: TradePlan)
    requires Sound(buyer) && Sound(seller) && 5 <= quantity <= 20
    ensures p != NoTrade <==>
              && !sameCountry && health >= 30.0
              && Need(buyer, Wanted(buyer)) > 0
              && seller.resources[Wanted(buyer)] >= 10
              && seller.money >= IntMin(quantity, seller.resources[Wanted(buyer)]) * 1000
    ensures p.Rejected? ==> coin > TradeChance(buyer, seller, sellerName)
    ensures p.Deal? ==>
              && coin <= TradeChance(buyer, seller, sellerName)
              && p.resource == Wanted(buyer)
              && p.amount == IntMin(quantity, seller.resources[p.resource])
              && 5 <= p.amount <= seller.resources[p.resource]
  {
    if sameCountry || health < 30.0 then NoTrade
    else
      var x := Wanted(buyer);
      if Need(buyer, x) <= 0 || seller.resources[x] < 10 then NoTrade
      else
        var amount := IntMin(quantity, seller.resources[x]);
        if seller.money < amount * 1000 then NoTrade
        else if coin > TradeChance(buyer, seller, sellerName) then Rejected
        else Deal(x, amount)
  }

  /** The buyer's side of a deal: stock up, pay 1000 per unit, and take the
      resource's pollution. */
  function Bought(s: CountryState, x: Resource, amount: int): (r: CountryState)
    requires Sound(s) && amount >= 0
    ensures Sound(r)
    ensures r == s.(resources := r.resources, money := r.money, pollution := r.pollution)
    ensures r.resources == s.resources[x := s.resources[x] + amount]
    ensures r.money == s.money - 1000 * amount
    ensures r.pollution == s.pollution + TradePollution(x)
  {
    s.(resources := s.resources[x := s.resources[x] + amount],
       money := s.money - amount * 1000,
       pollution := s.pollution + TradePollution(x))
  }

  /** The seller's side of a deal: give up the stock and receive the money. */
  function Sold(s: CountryState, x: Resource, amount: int): (r: CountryState)
    requires Sound(s) && 0 <= amount <= s.resources[x]
    ensures Sound(r)
    ensures r == s.(resources := r.resources, money := r.money)
    ensures r.resources == s.resources[x := s.resources[x] - amount]
    ensures r.money == s.money + 1000 * amount
  {
    s.(resources := s.resources[x := s.resources[x] - amount],
       money := s.money + amount * 1000)
  }

  /** The buyer once `trade_resources` has run its course: unchanged when
      there is no trade, tension +5 toward the seller after a rejection, and
      after a deal the goods, the payment, the pollution and tension -5. */
  function BuyerSide(s: CountryState, sellerName: string, plan: TradePlan): (r: CountryState)
    requires Sound(s) && (plan.Deal? ==> plan.amount >= 0)
    ensures Sound(r)
  {
    match plan
    case NoTrade => s
    case Rejected => WithTension(s, sellerName, 5)
    case Deal(x, amount) => WithTension(Bought(s, x, amount), sellerName, -5)
  }

  /** The seller once `trade_resources` has run its course: unchanged when
      there is no trade, tension +5 toward the buyer after a rejection, and
      after a deal the goods given up, the payment received and tension -5. */
  function SellerSide(s: CountryState, buyerName: string, plan: TradePlan): (r: CountryState)
    requires Sound(s) && (plan.Deal? ==> 0 <= plan.amount <= s.resources[plan.resource])
    ensures Sound(r)
  {
    match plan
    case NoTrade => s
    case Rejected => WithTension(s, buyerName, 5)
    case Deal(x, amount) => WithTension(Sold(s, x, amount), buyerName, -5)
  }

  /** The regional pollution entries after a trade: a deal adds the
      resource's pollution to the buyer's entry; nothing else changes. */
  function TradeRegional(regional: map<string, real>, buyerName: string, plan: TradePlan): map<string, real>
  {
    if plan.Deal? && buyerName in regional then
      regional[buyerName := regional[buyerName] + TradePollution(plan.resource)]
    else regional
  }

  /** Only the buyer's entry moves, and only by a deal's pollution. */
  lemma TradeRegionalFrame(regional: map<string, real>, buyerName: string, plan: TradePlan)
    ensures TradeRegional(regional, buyerName, plan).Keys == regional.Keys
    ensures forall n :: n in regional && n != buyerName ==>
              TradeRegional(regional, buyerName, plan)[n] == regional[n]
    ensures buyerName in regional ==>
              TradeRegional(regional, buyerName, plan)[buyerName]
              == regional[buyerName] + (if plan.Deal? then TradePollution(plan.resource) else 0.0)
  {
  }

  /** A trade moves goods and money between the two and creates neither:
      whatever its course, the two hold together, per resource and in money,
      what they held before. */
  lemma TradeConserves(buyer: CountryState, seller: CountryState, buyerName: string,
                       sellerName: string, plan: TradePlan)
    requires Sound(buyer) && Sound(seller)
    requires plan.Deal? ==> 0 <= plan.amount <= seller.resources[plan.resource]
    ensures forall y: Resource ::
              BuyerSide(buyer, sellerName, plan).resources[y] + SellerSide(seller, buyerName, plan).resources[y]
              == buyer.resources[y] + seller.resources[y]
    ensures BuyerSide(buyer, sellerName, plan).money + SellerSide(seller, buyerName, plan).money
            == buyer.money + seller.money
  {
    match plan
    case NoTrade =>
    case Rejected =>
    case Deal(x, amount) =>
      var b := Bought(buyer, x, amount);
      var t := Sold(seller, x, amount);
      assert BuyerSide(buyer, sellerName, plan) == WithTension(b, sellerName, -5);
      assert SellerSide(seller, buyerName, plan) == WithTension(t, buyerName, -5);
  }

  /** Only a deal changes stocks or money, and only of the traded resource:
      the buyer gains the amount of it that the seller loses. */
  lemma DealMovesOnlyTheResource(buyer: CountryState, seller: CountryState, buyerName: string,
                                 sellerName: string, x: Resource, amount: int)
    requires Sound(buyer) && Sound(seller)
    requires 0 <= amount <= seller.resources[x]
    ensures BuyerSide(buyer, sellerName, Deal(x, amount)).resources
            == buyer.resources[x := buyer.resources[x] + amount]
    ensures SellerSide(seller, buyerName, Deal(x, amount)).resources
            == seller.resources[x := seller.resources[x] - amount]
    ensures BuyerSide(buyer, sellerName, Deal(x, amount)).money == buyer.money - 1000 * amount
    ensures SellerSide(seller, buyerName, Deal(x, amount)).money == seller.money + 1000 * amount
  {
    var b := Bought(buyer, x, amount);
    var t := Sold(seller, x, amount);
    var bt := WithTension(b, sellerName, -5);
    var tt := WithTension(t, buyerName, -5);
    assert BuyerSide(buyer, sellerName, Deal(x, amount)) == bt;
    assert SellerSide(seller, buyerName, Deal(x, amount)) == tt;
    assert bt.resources == b.resources && bt.money == b.money;
    assert tt.resources == t.resources && tt.money == t.money;
  }

  /** Without a deal no goods and no money change hands. */
  lemma NoDealNoExchange(buyer: CountryState, seller: CountryState, buyerName: string,
                         sellerName: string, plan: TradePlan)
    requires Sound(buyer) && Sound(seller) && !plan.Deal?
    ensures BuyerSide(buyer, sellerName, plan).resources == buyer.resources
    ensures SellerSide(seller, buyerName, plan).resources == seller.resources
    ensures BuyerSide(buyer, sellerName, plan).money == buyer.money
    ensures SellerSide(seller, buyerName, plan).money == seller.money
  {
  }


  // ----------------------------------------------------------- agreement

  /** Signing the agreement: the flag is set, pollution -10 (not below 0),
      money -5%. */
  function Joined(s: CountryState): (r: CountryState)
    requires Sound(s)
    ensures Sound(r)
    ensures r == s.(agreement := 1, pollution := r.pollution, money := r.money)
    ensures r.pollution == Max(0.0, s.pollution - 10.0)
    ensures r.money == Trunc(s.money as real * 0.95)
  {
    s.(agreement := 1,
       pollution := Max(0.0, s.pollution - 10.0),
       money := Trunc(s.money as real * 0.95))
  }

  /** Refusing the agreement: pollution +5, happiness -2 (not below 0),
      rebellion risk +0.02. */
  function Refused(s: CountryState): (r: CountryState)
    requires Sound(s)
    ensures Sound(r)
    ensures r == s.(pollution := s.pollution + 5.0, happiness := r.happiness,
                    rebellionRisk := s.rebellionRisk + 0.02)
    ensures r.happiness == Max(0.0, s.happiness - 2.0)
  {
    s.(pollution := s.pollution + 5.0,
       happiness := Max(0.0, s.happiness - 2.0),
       rebellionRisk := s.rebellionRisk + 0.02)
  }

  /** The floor of the mean of two ideology scores lies between them. */
  function Averaged(a: int, b: int): (r: int)
    ensures IntMin(a, b) <= r <= IntMax(a, b)
    ensures a == b ==> r == a
  {
    (a + b) / 2
  }

  /** The joiner `me` meets the j-th country, which has already signed: each
      eases its tension toward the other by 5, and both take the floor of
      the mean of their ideologies. */
  function AlignStep(states: seq<CountryState>, names: seq<string>, me: nat, j: nat): (r: seq<CountryState>)
    requires |states| == |names| && me < |states| && j < |states| && j != me
    ensures |r| == |states|
  {
    var ideology := Averaged(states[me].ideology, states[j].ideology);
    states[me := Met(states[me], names[j], ideology)][j := Met(states[j], names[me], ideology)]
  }

  /** One side of a meeting: tension toward the partner -5, and the shared
      ideology. */
  function Met(s: CountryState, partner: string, ideology: int): (r: CountryState)
    ensures r == s.(tension := r.tension, ideology := ideology)
    ensures r.tension == WithTension(s, partner, -5).tension
    ensures Sound(s) ==> Sound(r)
  {
    WithTension(s, partner, -5).(ideology := ideology)
  }

  /** The states of all countries after the joiner `me` has gone through the
      first `n` countries, meeting each other one that has already signed. */
  function Alignment(states: seq<CountryState>, names: seq<string>, me: nat, n: nat): (r: seq<CountryState>)
    requires |states| == |names| && me < |states| && n <= |states|
    ensures |r| == |states|
  {
    if n == 0 then states
    else
      var prev := Alignment(states, names, me, n - 1);
      if n - 1 != me && prev[n - 1].agreement == 1 then AlignStep(prev, names, me, n - 1)
      else prev
  }

  /** The states Alignment goes through, meeting after meeting. */
  ghost method AlignmentTrail(states: seq<CountryState>, names: seq<string>, me: nat)
    returns (trail: seq<seq<CountryState>>)
    requires |states| == |names| && me < |states|
    ensures |trail| == |states| + 1 && trail[0] == states
    ensures trail[|states|] == Alignment(states, names, me, |states|)
    ensures forall n :: 0 <= n < |states| ==>
              && |trail[n]| == |states|
              && trail[n + 1] == if n != me && trail[n][n].agreement == 1
                                 then AlignStep(trail[n], names, me, n) else trail[n]
  {
    trail := seq(|states| + 1, n requires 0 <= n <= |states| => Alignment(states, names, me, n));
    forall n | 0 <= n < |states|
      ensures trail[n + 1] == if n != me && trail[n][n].agreement == 1
                              then AlignStep(trail[n], names, me, n) else trail[n]
    {
      AlignmentStep(states, names, me, n, trail[n], trail[n + 1]);
    }
  }

  /** Alignment, one meeting further, for named states. */
  lemma AlignmentStep(states: seq<CountryState>, names: seq<string>, me: nat, n: nat,
                      prev: seq<CountryState>, next: seq<CountryState>)
    requires |states| == |names| && me < |states| && n < |states|
    requires prev == Alignment(states, names, me, n) && next == Alignment(states, names, me, n + 1)
    ensures |prev| == |states|
    ensures next == if n != me && prev[n].agreement == 1 then AlignStep(prev, names, me, n) else prev
  {
  }

  /** The states after the country at `me` has answered the agreement:
      signing applies its own changes and then the meetings with the
      signatories; refusing applies its own changes alone. */
  function Answered(states: seq<CountryState>, names: seq<string>, me: nat, action: Action): (r: seq<CountryState>)
    requires |states| == |names| && me < |states| && Sound(states[me])
    ensures |r| == |states|
  {
    if action == Join then Alignment(states[me := Joined(states[me])], names, me, |states|)
    else states[me := Refused(states[me])]
  }

  /** Ecosystem health after the answer: +5 (at most 100) for signing. */
  function AgreementHealth(health: real, action: Action): (h: real)
    ensures 0.0 <= health <= 100.0 ==> 0.0 <= h <= 100.0
    ensures action == Join ==> h >= health || health > 100.0
    ensures action != Join ==> h == health
  {
    if action == Join then Min(100.0, health + 5.0) else health
  }

  /** Regional pollution after the answer: +5 on the refuser's entry. */
  function AgreementRegional(regional: map<string, real>, name: string, action: Action): (r: map<string, real>)
    ensures r.Keys == regional.Keys
  {
    if action != Join && name in regional then regional[name := regional[name] + 5.0] else regional
  }

  /** The meetings only touch tensions and ideologies. */
  lemma {:induction false} AlignmentFrame(states: seq<CountryState>, names: seq<string>, me: nat, n: nat)
    requires |states| == |names| && me < |states| && n <= |states|
    ensures forall i :: 0 <= i < |states| ==>
              Alignment(states, names, me, n)[i]
              == states[i].(tension := Alignment(states, names, me, n)[i].tension,
                            ideology := Alignment(states, names, me, n)[i].ideology)
  {
    if n > 0 {
      AlignmentFrame(states, names, me, n - 1);
      var prev := Alignment(states, names, me, n - 1);
      var r := Alignment(states, names, me, n);
      if n - 1 != me && prev[n - 1].agreement == 1 {
        assert r == AlignStep(prev, names, me, n - 1);
        forall i | 0 <= i < |states|
          ensures r[i] == states[i].(tension := r[i].tension, ideology := r[i].ideology)
        {
          if i != me && i != n - 1 {
            assert r[i] == prev[i];
          }
        }
      } else {
        assert r == prev;
      }
    }
  }

  /** The meetings leave alone every country other than the joiner that had
      not signed, or that lies beyond the first `n`. */
  lemma {:induction false} AlignmentKeeps(states: seq<CountryState>, names: seq<string>, me: nat, n: nat)
    requires |states| == |names| && me < |states| && n <= |states|
    ensures forall i :: 0 <= i < |states| && i != me && (n <= i || states[i].agreement != 1) ==>
              Alignment(states, names, me, n)[i] == states[i]
  {
    if n > 0 {
      AlignmentKeeps(states, names, me, n - 1);
      var prev := Alignment(states, names, me, n - 1);
      var r := Alignment(states, names, me, n);
      if n - 1 != me && prev[n - 1].agreement == 1 {
        assert r == AlignStep(prev, names, me, n - 1);
        forall i | 0 <= i < |states| && i != me && (n <= i || states[i].agreement != 1)
          ensures r[i] == states[i]
        {
          assert i != n - 1;
          assert r[i] == prev[i];
        }
      } else {
        assert r == prev;
      }
    }
  }

  /** The meetings keep every state sound: tensions stay within 0..100. */
  lemma {:induction false} AlignmentSound(states: seq<CountryState>, names: seq<string>, me: nat, n: nat)
    requires |states| == |names| && me < |states| && n <= |states|
    requires forall i :: 0 <= i < |states| ==> Sound(states[i])
    ensures forall i :: 0 <= i < |states| ==> Sound(Alignment(states, names, me, n)[i])
  {
    if n > 0 {
      AlignmentSound(states, names, me, n - 1);
      var prev := Alignment(states, names, me, n - 1);
      if n - 1 != me && prev[n - 1].agreement == 1 {
        var r := AlignStep(prev, names, me, n - 1);
        assert r == Alignment(states, names, me, n);
        forall i | 0 <= i < |states|
          ensures Sound(r[i])
        {
          if i != me && i != n - 1 {
            assert r[i] == prev[i];
          }
        }
      }
    }
  }

  /** Answering keeps every state sound and changes no rebellion flag. */
  lemma AnsweredSound(states: seq<CountryState>, names: seq<string>, me: nat, action: Action)
    requires |states| == |names| && me < |states| && AllSound(states)
    ensures AllSound(Answered(states, names, me, action))
    ensures forall i :: 0 <= i < |states| ==>
              Answered(states, names, me, action)[i].hasRebelled == states[i].hasRebelled
  {
    var own := if action == Join then states[me := Joined(states[me])] else states[me := Refused(states[me])];
    assert AllSound(own);
    if action == Join {
      AlignmentSound(own, names, me, |states|);
      AlignmentFrame(own, names, me, |states|);
    }
  }

  /** Alignment only averages: when every ideology lies in lo..hi before,
      every ideology lies in lo..hi after. */
  lemma {:induction false} AlignmentStaysInRange(states: seq<CountryState>, names: seq<string>,
                                                 me: nat, n: nat, lo: int, hi: int)
    requires |states| == |names| && me < |states| && n <= |states|
    requires forall i :: 0 <= i < |states| ==> lo <= states[i].ideology <= hi
    ensures forall i :: 0 <= i < |states| ==> lo <= Alignment(states, names, me, n)[i].ideology <= hi
  {
    if n > 0 {
      AlignmentStaysInRange(states, names, me, n - 1, lo, hi);
      var prev := Alignment(states, names, me, n - 1);
      if n - 1 != me && prev[n - 1].agreement == 1 {
        var r := AlignStep(prev, names, me, n - 1);
        assert r == Alignment(states, names, me, n);
        var mean := Averaged(prev[me].ideology, prev[n - 1].ideology);
        assert lo <= mean <= hi;
        forall i | 0 <= i < |states|
          ensures lo <= r[i].ideology <= hi
        {
          if i != me && i != n - 1 {
            assert r[i] == prev[i];
          }
        }
      }
    }
  }

  /** The agreement decision's reward: happiness gained, money gained in
      units of 10^7, less a tenth of the pollution gained, plus ecosystem
      health gained, less ten times the rebellion risk gained. */
  function AgreementReward(before: CountryState, after: CountryState,
                           healthBefore: real, healthAfter: real): (reward: real)
    ensures Sound(before) && after == Refused(before) && healthBefore == healthAfter ==>
              reward == (after.happiness - before.happiness) - 0.5 - 0.2
  {
    (after.happiness - before.happiness)
    + (after.money - before.money) as real / 10000000.0
    - (after.pollution - before.pollution) / 10.0
    + (healthAfter - healthBefore)
    - (after.rebellionRisk - before.rebellionRisk) * 10.0
  }

  // ---------------------------------------------------------- investment

  /** The amount invested: int(money * 0.05). */
  function InvestmentAmount(money: int): (amount: int)
    ensures money >= 0 ==> 0 <= amount <= money
  {
    Trunc(money as real * 0.05)
  }

  /** The second funds check of `make_investment_decision` (an amount below
      5000) cannot fire once the first (money at least 10,000,000) passed. */
  lemma SmallInvestmentUnreachable(money: int)
    requires money >= 10000000
    ensures InvestmentAmount(money) >= 5000
  {
  }

  /** Investment efficiency: 0.5 while ecosystem health is below 30, else 1;
      times 1.2 for happiness above 70, times 0.8 for happiness below 30. */
  function Efficiency(health: real, happiness: real): (e: real)
    ensures 0.4 <= e <= 1.2
    ensures health >= 30.0 && happiness > 70.0 ==> e == 1.2
    ensures health >= 30.0 && 30.0 <= happiness <= 70.0 ==> e == 1.0
    ensures health < 30.0 && 30.0 <= happiness <= 70.0 ==> e == 0.5
  {
    var base := if health < 30.0 then 0.5 else 1.0;
    if happiness > 70.0 then base * 1.2
    else if happiness < 30.0 then base * 0.8
    else base
  }

  /** Pollution an economy investment adds: 7 (right) or 5 (left) per unit of
      efficiency. */
  function EconomyPollution(g: Government, efficiency: real): real
  {
    (if g == Right then 7.0 else 5.0) * efficiency
  }

  /** Pollution an environment investment removes: 10 (right) or 12 (left)
      per unit of efficiency. */
  function EnvironmentCut(g: Government, efficiency: real): real
  {
    (if g == Right then 10.0 else 12.0) * efficiency
  }

  /** Ecosystem health an environment investment restores: 3 (right) or 7
      (left) per unit of efficiency. */
  function HealthGain(g: Government, efficiency: real): real
  {
    (if g == Right then 3.0 else 7.0) * efficiency
  }

  /** Production an economy investment adds per unit of efficiency: 10
      (right) or 12 (left). */
  function ProductionGain(g: Government): (p: real)
    ensures p == 10.0 || p == 12.0
  {
    if g == Right then 10.0 else 12.0
  }

  /** The money growth rate of an economy investment per unit of efficiency:
      7% (right) or 5% (left). */
  function MoneyRate(g: Government): (rate: real)
    ensures rate == 0.07 || rate == 0.05
  {
    if g == Right then 0.07 else 0.05
  }

  /** Economy: production +10 (right) or +12 (left), pollution +7 or +5,
      money +7% or +5%, all per unit of efficiency; oil and coal +int(5e),
      gas +int(3e); a left government loses 2e happiness. */
  function EconomyBoost(s: CountryState, efficiency: real): (r: CountryState)
    requires Sound(s) && 0.0 <= efficiency
    ensures Sound(r)
    ensures r.production > s.production || efficiency == 0.0
    ensures r.pollution == s.pollution + EconomyPollution(s.government, efficiency)
    ensures forall x: Resource :: r.resources[x] >= s.resources[x]
    ensures r == s.(production := r.production, pollution := r.pollution, money := r.money,
                    resources := r.resources, happiness := r.happiness)
    ensures s.government == Right ==> r.happiness == s.happiness
  {
    var stocked := s.resources[Oil := s.resources[Oil] + Trunc(5.0 * efficiency)]
                              [Coal := s.resources[Coal] + Trunc(5.0 * efficiency)]
                              [Gas := s.resources[Gas] + Trunc(3.0 * efficiency)];
    var r := s.(production := s.production + ProductionGain(s.government) * efficiency,
                pollution := s.pollution + EconomyPollution(s.government, efficiency),
                money := Trunc(s.money as real * (1.0 + MoneyRate(s.government) * efficiency)),
                resources := stocked);
    if s.government == Right then r else r.(happiness := Max(0.0, r.happiness - 2.0 * efficiency))
  }

  /** Environment: pollution falls by the cut (not below 0), happiness +5e
      (capped at 100), money +2e%, forest +int(5e). */
  function EnvironmentBoost(s: CountryState, efficiency: real): (r: CountryState)
    requires Sound(s) && 0.0 <= efficiency
    ensures Sound(r)
    ensures r.pollution == Max(0.0, s.pollution - EnvironmentCut(s.government, efficiency))
    ensures r.pollution <= s.pollution && r.happiness >= s.happiness
    ensures r == s.(pollution := r.pollution, happiness := r.happiness, money := r.money,
                    resources := r.resources)
    ensures r.resources == s.resources[Forest := s.resources[Forest] + Trunc(5.0 * efficiency)]
  {
    s.(pollution := Max(0.0, s.pollution - EnvironmentCut(s.government, efficiency)),
       happiness := Min(100.0, s.happiness + 5.0 * efficiency),
       money := Trunc(s.money as real * (1.0 + 0.02 * efficiency)),
       resources := s.resources[Forest := s.resources[Forest] + Trunc(5.0 * efficiency)])
  }

  /** Infrastructure an investment adds per unit of efficiency: 25 (right)
      or 15 (left). */
  function InfrastructureGain(g: Government): (i: real)
    ensures i == 25.0 || i == 15.0
  {
    if g == Right then 25.0 else 15.0
  }

  /** Rebellion risk an infrastructure investment removes per unit of
      efficiency: 0.03 (right) or 0.02 (left). */
  function RiskRelief(g: Government): (rr: real)
    ensures rr == 0.03 || rr == 0.02
  {
    if g == Right then 0.03 else 0.02
  }

  /** Infrastructure: +25e (right) or +15e (left), capped at 100; happiness
      +4e (capped at 100); rebellion risk -0.03e or -0.02e (not below 0). */
  function InfrastructureBoost(s: CountryState, efficiency: real): (r: CountryState)
    requires Sound(s) && 0.0 <= efficiency
    ensures Sound(r)
    ensures r == s.(infrastructure := r.infrastructure, happiness := r.happiness,
                    rebellionRisk := r.rebellionRisk)
    ensures r.infrastructure >= s.infrastructure && r.happiness >= s.happiness
    ensures r.rebellionRisk <= s.rebellionRisk
  {
    s.(infrastructure := Min(100.0, s.infrastructure + InfrastructureGain(s.government) * efficiency),
       happiness := Min(100.0, s.happiness + 4.0 * efficiency),
       rebellionRisk := Max(0.0, s.rebellionRisk - RiskRelief(s.government) * efficiency))
  }

  /** The country after investing in `area`: 5% of the money moves into that
      area's investment account, then the area's effect applies with the
      efficiency read before it. */
  function Invested(s: CountryState, area: Action, health: real): (r: CountryState)
    requires Sound(s) && area in DomainSet(Invest)
    ensures Sound(r)
    ensures r.investments == s.investments[area := s.investments[area] + InvestmentAmount(s.money)]
    ensures area == Infrastructure ==> r.money == s.money - InvestmentAmount(s.money)
  {
    var paid := Paid(s, area);
    var efficiency := Efficiency(health, paid.happiness);
    match area
    case Economy => EconomyBoost(paid, efficiency)
    case Environment => EnvironmentBoost(paid, efficiency)
    case Infrastructure => InfrastructureBoost(paid, efficiency)
  }

  /** Paying for an investment: the amount leaves the money and enters the
      area's account, so money plus that account is what it was. */
  function Paid(s: CountryState, area: Action): (r: CountryState)
    requires Sound(s) && area in DomainSet(Invest)
    ensures Sound(r)
    ensures r == s.(money := r.money, investments := r.investments)
    ensures r.investments == s.investments[area := r.investments[area]]
    ensures r.money + r.investments[area] == s.money + s.investments[area]
    ensures s.money >= 0 ==> 0 <= s.money - r.money <= s.money
  {
    var amount := InvestmentAmount(s.money);
    s.(money := s.money - amount,
       investments := s.investments[area := s.investments[area] + amount])
  }

  /** The investing country's regional pollution entry afterwards: an
      economy investment adds the economy pollution, an environment one
      removes the cut (not below 0), an infrastructure one leaves it. */
  function RegionalAfterInvestment(entry: real, s: CountryState, area: Action, health: real): real
  {
    var efficiency := Efficiency(health, s.happiness);
    match area
    case Economy => entry + EconomyPollution(s.government, efficiency)
    case Environment => Max(0.0, entry - EnvironmentCut(s.government, efficiency))
    case _ => entry
  }

  /** Ecosystem health afterwards: an environment investment restores the
      health gain, capped at 100; the others leave it. */
  function HealthAfterInvestment(s: CountryState, area: Action, health: real): (h: real)
    ensures 0.0 <= health <= 100.0 ==> health <= h <= 100.0
    ensures area != Environment ==> h == health
  {
    if area == Environment then Min(100.0, health + HealthGain(s.government, Efficiency(health, s.happiness)))
    else health
  }

  /** Global pollution afterwards: an environment investment removes twice
      the efficiency, not below 0; the others leave it. */
  function GlobalAfterInvestment(globalPollution: real, s: CountryState, area: Action, health: real): (g: real)
    ensures area != Environment ==> g == globalPollution
    ensures area == Environment ==> g >= 0.0 && (globalPollution >= 0.0 ==> g <= globalPollution)
  {
    if area == Environment then Max(0.0, globalPollution - 2.0 * Efficiency(health, s.happiness))
    else globalPollution
  }

  /** An economy or infrastructure investment moves the country's pollution
      and its regional entry by the same amount; an environment investment
      cuts both by the same amount, each not below 0. */
  lemma InvestmentPollutionTracked(s: CountryState, area: Action, health: real, entry: real)
    requires Sound(s) && area in DomainSet(Invest)
    ensures area != Environment ==>
              Invested(s, area, health).pollution - s.pollution
              == RegionalAfterInvestment(entry, s, area, health) - entry
    ensures area == Environment ==>
              var cut := EnvironmentCut(s.government, Efficiency(health, s.happiness));
              && Invested(s, area, health).pollution == Max(0.0, s.pollution - cut)
              && RegionalAfterInvestment(entry, s, area, health) == Max(0.0, entry - cut)
  {
    var paid := Paid(s, area);
    assert paid.pollution == s.pollution && paid.government == s.government
           && paid.happiness == s.happiness;
    var efficiency := Efficiency(health, paid.happiness);
    match area
    case Economy => assert Invested(s, area, health) == EconomyBoost(paid, efficiency);
    case Environment => assert Invested(s, area, health) == EnvironmentBoost(paid, efficiency);
    case Infrastructure => assert Invested(s, area, health) == InfrastructureBoost(paid, efficiency);
  }

  /** With ecosystem health 80 and happiness 80 the efficiency is 1.2, so an
      environment investment cuts pollution by 12 under a right government
      and by 14.4 under a left one, never below 0. */
  lemma EnvironmentScenario(s: CountryState)
    requires Sound(s) && s.happiness == 80.0
    ensures Efficiency(80.0, s.happiness) == 1.2
    ensures s.government == Right ==>
              Invested(s, Environment, 80.0).pollution == Max(0.0, s.pollution - 12.0)
    ensures s.government == Left ==>
              Invested(s, Environment, 80.0).pollution == Max(0.0, s.pollution - 14.4)
  {
  }

  /** The investment decision's reward: happiness gained, money gained in
      units of 10^7, less the pollution gained, plus half the ecosystem health
      gained, less ten times the rebellion risk gained. */
  function InvestmentReward(before: CountryState, after: CountryState,
                            healthBefore: real, healthAfter: real): (reward: real)
    ensures after.happiness == before.happiness && after.money == before.money
            && after.pollution == before.pollution && after.rebellionRisk == before.rebellionRisk ==>
              reward == 0.5 * (healthAfter - healthBefore)
  {
    (after.happiness - before.happiness)
    + (after.money - before.money) as real / 10000000.0
    - (after.pollution - before.pollution)
    + (healthAfter - healthBefore) * 0.5
    - (after.rebellionRisk - before.rebellionRisk) * 10.0
  }
}
