/** What prefunding guarantees to whoever executes the plan
    (src/services/plan-approval/options/gas-prefunding-option.ts:24-50): no signer
    runs out of gas, exactly if no account is counted under two spellings and the
    funding wallet is not topped up before another signer. */
module GasGuarantee {
  import opened Wrappers
  import opened Chain
  import opened Plans
  import opened Gas

  /* ---- executing a plan ---- */

  /** A transaction: who signs it and what its gas costs. */
  datatype Spending = Spending(signer: Address, cost: nat)

  function Spent(spendings: seq<Spending>, who: Address): nat {
    if spendings == [] then 0 else
    var last := spendings[|spendings| - 1];
    Spent(spendings[..|spendings| - 1], who) + if Lower(last.signer) == Lower(who) then last.cost else 0
  }

  /** How many are signed by an account, and how many under one spelling of it. */
  function Times(spendings: seq<Spending>, who: Address): nat {
    if spendings == [] then 0 else
    var last := spendings[|spendings| - 1];
    Times(spendings[..|spendings| - 1], who) + if Lower(last.signer) == Lower(who) then 1 else 0
  }

  function Signatures(spendings: seq<Spending>, who: Address): nat {
    if spendings == [] then 0 else
    Signatures(spendings[..|spendings| - 1], who) + if spendings[|spendings| - 1].signer == who then 1 else 0
  }

  /** Transactions of the plan in any order: by its signers, no more than were
      counted, each at a gas cost of at most the station's amount. */
  ghost predicate Within(c: TxCounts, spendings: seq<Spending>, unit: nat) {
    && (forall i :: 0 <= i < |spendings| ==> spendings[i].signer in c.order && spendings[i].cost <= unit)
    && (forall a :: a in c.order ==> Signatures(spendings, a) <= Get(c, a))
  }

  /** The signer can still pay for its transaction when its turn comes. */
  predicate Affords(b: Native, spendings: seq<Spending>, k: nat)
    requires k < |spendings|
  {
    Spent(spendings[..k], spendings[k].signer) + spendings[k].cost <= Holds(b, spendings[k].signer)
  }

  ghost predicate NeverDry(c: TxCounts, b: Native, unit: nat) {
    forall spendings: seq<Spending>, k: nat :: Within(c, spendings, unit) && k < |spendings| ==> Affords(b, spendings, k)
  }

  /** No two signers are the same account written differently. */
  predicate Distinct(c: TxCounts) {
    forall a, a' :: a in c.order && a' in c.order && Lower(a) == Lower(a') ==> a == a'
  }

  /* ---- enough ---- */

  lemma {:induction false} SpentAtMost(spendings: seq<Spending>, who: Address, unit: nat)
    requires forall i :: 0 <= i < |spendings| ==> spendings[i].cost <= unit
    ensures Spent(spendings, who) <= Cost(unit, Times(spendings, who))
  {
    if spendings != [] {
      SpentAtMost(spendings[..|spendings| - 1], who, unit);
    }
  }

  lemma {:induction false} EarlierSpent(spendings: seq<Spending>, k: nat, who: Address)
    requires k <= |spendings|
    ensures Spent(spendings[..k], who) <= Spent(spendings, who)
  {
    if k < |spendings| {
      EarlierSpent(spendings[..|spendings| - 1], k, who);
      assert spendings[..|spendings| - 1][..k] == spendings[..k];
    } else {
      assert spendings[..k] == spendings;
    }
  }

  /** A wallet that holds the amount for each of its transactions can pay for
      every one of them, in whatever order they and the others' are executed. */
  lemma {:induction false} NeverRunsDry(b: Native, unit: nat, spendings: seq<Spending>, k: nat)
    requires k < |spendings| && forall i :: 0 <= i < |spendings| ==> spendings[i].cost <= unit
    requires Holds(b, spendings[k].signer) >= Cost(unit, Times(spendings, spendings[k].signer))
    ensures Affords(b, spendings, k)
  {
    var who := spendings[k].signer;
    SpentAtMost(spendings, who, unit);
    EarlierSpent(spendings, k + 1, who);
    assert spendings[..k + 1][..k] == spendings[..k];
  }

  lemma {:induction false} TimesAreSignatures(spendings: seq<Spending>, who: Address)
    requires forall i :: 0 <= i < |spendings| && Lower(spendings[i].signer) == Lower(who) ==> spendings[i].signer == who
    ensures Times(spendings, who) == Signatures(spendings, who)
  {
    if spendings != [] {
      TimesAreSignatures(spendings[..|spendings| - 1], who);
    }
  }

  lemma FundedNeverDry(c: TxCounts, b: Native, unit: nat)
    requires Distinct(c) && FundedAll(c.order, c, b, unit)
    ensures NeverDry(c, b, unit)
  {
    forall spendings: seq<Spending>, k: nat | Within(c, spendings, unit) && k < |spendings| ensures Affords(b, spendings, k) {
      var who := spendings[k].signer;
      TimesAreSignatures(spendings, who);
      CostAdds(unit, Signatures(spendings, who), Get(c, who) - Signatures(spendings, who));
      NeverRunsDry(b, unit, spendings, k);
    }
  }

  /* ---- not enough ---- */

  function Repeat(who: Address, n: nat, unit: nat): seq<Spending> { if n == 0 then [] else Repeat(who, n - 1, unit) + [Spending(who, unit)] }

  lemma {:induction false} RepeatIs(who: Address, n: nat, unit: nat)
    ensures |Repeat(who, n, unit)| == n && (forall i :: 0 <= i < n ==> Repeat(who, n, unit)[i] == Spending(who, unit))
    ensures n > 0 ==> Repeat(who, n, unit)[..n - 1] == Repeat(who, n - 1, unit)
  {
    if n > 0 {
      RepeatIs(who, n - 1, unit);
    }
  }

  lemma {:induction false} Repeated(who: Address, n: nat, unit: nat, other: Address)
    ensures Signatures(Repeat(who, n, unit), other) == if other == who then n else 0
    ensures Lower(other) == Lower(who) ==> Spent(Repeat(who, n, unit), other) == Cost(unit, n)
  {
    if n > 0 {
      RepeatIs(who, n, unit);
      Repeated(who, n - 1, unit, other);
    }
  }

  /** Below the amount for its transactions, a wallet can run dry. */
  lemma ShortRunsDry(c: TxCounts, b: Native, unit: nat, who: Address)
    requires who in c.order && Get(c, who) > 0 && Holds(b, who) < Cost(unit, Get(c, who))
    ensures !NeverDry(c, b, unit)
  {
    var n := Get(c, who);
    var all := Repeat(who, n, unit);
    forall a ensures Signatures(all, a) <= Get(c, a) || a !in c.order {
      Repeated(who, n, unit, a);
    }
    RepeatIs(who, n, unit);
    Repeated(who, n - 1, unit, who);
    assert Within(c, all, unit) && !Affords(b, all, n - 1);
  }

  lemma OneMoreBy(spendings: seq<Spending>, s: Spending, a: Address)
    ensures Signatures(spendings + [s], a) == Signatures(spendings, a) + if s.signer == a then 1 else 0
  {
    assert (spendings + [s])[..|spendings|] == spendings;
  }

  /** All transactions of one spelling, and then one of the other's. */
  function OneThenOther(c: TxCounts, unit: nat, one: Address, two: Address): seq<Spending> {
    Repeat(one, Get(c, one), unit) + [Spending(two, unit)]
  }

  lemma OneThenOtherWithin(c: TxCounts, unit: nat, one: Address, two: Address)
    requires one in c.order && two in c.order && one != two && Get(c, two) > 0
    ensures Within(c, OneThenOther(c, unit, one, two), unit)
  {
    RepeatIs(one, Get(c, one), unit);
    forall a | a in c.order ensures Signatures(OneThenOther(c, unit, one, two), a) <= Get(c, a) {
      Repeated(one, Get(c, one), unit, a);
      OneMoreBy(Repeat(one, Get(c, one), unit), Spending(two, unit), a);
    }
  }

  /** With the amount for one spelling's transactions an account runs dry on the other's. */
  lemma TwoSpellingsRunDry(c: TxCounts, b: Native, unit: nat, one: Address, two: Address)
    requires one in c.order && two in c.order && one != two && Lower(one) == Lower(two) && unit > 0
    requires Get(c, two) > 0 && Holds(b, one) == Cost(unit, Get(c, one))
    ensures !NeverDry(c, b, unit)
  {
    var n, all := Get(c, one), OneThenOther(c, unit, one, two);
    OneThenOtherWithin(c, unit, one, two);
    RepeatIs(one, n, unit);
    Repeated(one, n, unit, two);
    assert all[..n] == Repeat(one, n, unit) && all[n] == Spending(two, unit);
    assert !Affords(b, all, n);
  }

  /** Balances that are just enough: what the most demanding spelling of each
      account needs. */
  function Fill(order: seq<Address>, c: TxCounts, unit: nat): Native {
    if order == [] then map[] else
    var b, last := Fill(order[..|order| - 1], c, unit), order[|order| - 1];
    Set(b, last, if Holds(b, last) >= Cost(unit, Get(c, last)) then Holds(b, last) else Cost(unit, Get(c, last)))
  }

  lemma {:induction false} FillFunds(order: seq<Address>, c: TxCounts, unit: nat)
    ensures FundedAll(order, c, Fill(order, c, unit), unit)
  {
    if order != [] {
      FillFunds(order[..|order| - 1], c, unit);
      assert order == order[..|order| - 1] + [order[|order| - 1]];
    }
  }

  predicate Spelled(order: seq<Address>, who: Address) { exists k :: 0 <= k < |order| && Lower(order[k]) == Lower(who) }

  lemma {:induction false} FillIsTight(order: seq<Address>, c: TxCounts, unit: nat, who: Address) returns (a: Address)
    ensures !Spelled(order, who) ==> Holds(Fill(order, c, unit), who) == 0
    ensures Spelled(order, who) ==> a in order && Lower(a) == Lower(who) && Holds(Fill(order, c, unit), who) == Cost(unit, Get(c, a))
  {
    a := who;
    if order != [] {
      var init, last := order[..|order| - 1], order[|order| - 1];
      var b := Fill(init, c, unit);
      assert order == init + [last];
      assert Spelled(order, who) <==> Spelled(init, who) || Lower(last) == Lower(who) by {
        if k :| 0 <= k < |init| && Lower(init[k]) == Lower(who) {
          assert order[k] == init[k];
        }
        assert order[|init|] == last;
      }
      a := FillIsTight(init, c, unit, who);
      if Lower(last) == Lower(who) && !(Spelled(init, who) && Holds(b, last) >= Cost(unit, Get(c, last))) {
        a := last;
      }
    }
  }

  /** Whatever the balances, all funded signers can execute the plan in any order,
      exactly if no account is counted under two spellings. */
  lemma FundedSufficesIff(c: TxCounts, unit: nat)
    requires Proper(c) && unit > 0
    ensures (forall b :: FundedAll(c.order, c, b, unit) ==> NeverDry(c, b, unit)) <==> Distinct(c)
  {
    if Distinct(c) {
      forall b | FundedAll(c.order, c, b, unit) ensures NeverDry(c, b, unit) {
        FundedNeverDry(c, b, unit);
      }
    } else {
      FillRunsDry(c, unit);
      FillFunds(c.order, c, unit);
    }
  }

  lemma FillRunsDry(c: TxCounts, unit: nat)
    requires Proper(c) && unit > 0 && !Distinct(c)
    ensures !NeverDry(c, Fill(c.order, c, unit), unit)
  {
    var a, a' :| a in c.order && a' in c.order && Lower(a) == Lower(a') && a != a';
    var k :| 0 <= k < |c.order| && c.order[k] == a;
    var tight := FillIsTight(c.order, c, unit, a);
    TwoSpellingsRunDry(c, Fill(c.order, c, unit), unit, tight, if tight == a then a' else a);
  }

  /* ---- the funding wallet ---- */

  /** Everything is mined at once and costs no fee. */
  function Clock(k: nat): nat { GAS_FUNDING_POLL_INTERVAL_MS * k }
  function FairWeather(): Address -> Weather { who => Weather(true, 0, 0, Clock) }

  lemma FairIsFair(who: Address)
    ensures Ticks(FairWeather()(who).clock) && MinedInTime(FairWeather()(who)) && FairWeather()(who).fee == 0
  {
  }

  /** One top-up on what other top-ups left. */
  function Next(before: Prefunded, who: Address, c: TxCounts, funder: Address, unit: nat, weather: Address -> Weather): Prefunded {
    var topped := AfterTopUp(before.balances, funder, unit, who, Get(c, who), weather(who));
    Prefunded(topped.balances, before.failures + if topped.ok then 0 else 1)
  }

  lemma {:induction false} TopUpsThen(first: seq<Address>, second: seq<Address>, c: TxCounts, b: Native, funder: Address, unit: nat, weather: Address -> Weather)
    ensures var one := TopUps(first, c, b, funder, unit, weather);
            var two := TopUps(second, c, one.balances, funder, unit, weather);
            TopUps(first + second, c, b, funder, unit, weather) == Prefunded(two.balances, one.failures + two.failures)
    decreases |second|
  {
    if second == [] {
      assert first + second == first;
    } else {
      TopUpsThenOne(first, second, second[..|second| - 1], second[|second| - 1], c, b, funder, unit, weather);
    }
  }

  lemma {:induction false} TopUpsThenOne(first: seq<Address>, second: seq<Address>, init: seq<Address>, last: Address, c: TxCounts, b: Native,
                                         funder: Address, unit: nat, weather: Address -> Weather)
    requires second == init + [last]
    ensures var one := TopUps(first, c, b, funder, unit, weather);
            var two := TopUps(second, c, one.balances, funder, unit, weather);
            TopUps(first + second, c, b, funder, unit, weather) == Prefunded(two.balances, one.failures + two.failures)
    decreases |second|, 0
  {
    var one := TopUps(first, c, b, funder, unit, weather);
    TopUpsThen(first, init, c, b, funder, unit, weather);
    LastTopUp(first + second, first + init, last, c, b, funder, unit, weather);
    LastTopUp(second, init, last, c, one.balances, funder, unit, weather);
  }

  lemma LastTopUp(order: seq<Address>, init: seq<Address>, last: Address, c: TxCounts, b: Native, funder: Address, unit: nat, weather: Address -> Weather)
    requires order == init + [last]
    ensures TopUps(order, c, b, funder, unit, weather) == Next(TopUps(init, c, b, funder, unit, weather), last, c, funder, unit, weather)
  {
    assert order[..|order| - 1] == init;
  }

  /** Who is funded is left alone. */
  lemma {:induction false} FundedStay(order: seq<Address>, c: TxCounts, b: Native, funder: Address, unit: nat, weather: Address -> Weather)
    requires FundedAll(order, c, b, unit) && forall a :: a in order ==> Get(c, a) > 0
    ensures TopUps(order, c, b, funder, unit, weather) == Prefunded(b, 0)
  {
    if order != [] {
      FundedStay(order[..|order| - 1], c, b, funder, unit, weather);
      assert order[|order| - 1] in order;
    }
  }

  /** Balances with which the funding wallet passes its own check and then pays
      for the signer at `j`: just not enough for both. */
  function JustShort(c: TxCounts, unit: nat, i: nat, j: nat): Native
    requires i < |c.order| && j < |c.order| && Cost(unit, Get(c, c.order[i])) > 0
  {
    var own, others := Cost(unit, Get(c, c.order[i])), Cost(unit, Get(c, c.order[j]));
    Set(Set(Fill(c.order, c, unit), c.order[j], 0), c.order[i], own + others - 1)
  }

  lemma CostIsPositive(unit: nat, n: nat)
    requires unit > 0 && n > 0
    ensures Cost(unit, n) > 0
  {
  }

  lemma OtherJustFunded(c: TxCounts, unit: nat, i: nat, j: nat, a: Address)
    requires i < |c.order| && j < |c.order| && Cost(unit, Get(c, c.order[i])) > 0 && Cost(unit, Get(c, c.order[j])) > 0
    requires Lower(a) != Lower(c.order[j]) && (Lower(a) == Lower(c.order[i]) ==> a == c.order[i])
    requires Holds(Fill(c.order, c, unit), a) >= Cost(unit, Get(c, a))
    ensures Holds(JustShort(c, unit, i, j), a) >= Cost(unit, Get(c, a))
  {
  }

  lemma OthersJustFunded(c: TxCounts, unit: nat, i: nat, j: nat, part: seq<Address>)
    requires Distinct(c) && i < j < |c.order|
    requires Cost(unit, Get(c, c.order[i])) > 0 && Cost(unit, Get(c, c.order[j])) > 0
    requires forall a :: a in part ==> a in c.order && a != c.order[j]
    ensures FundedAll(part, c, JustShort(c, unit, i, j), unit)
  {
    FillFunds(c.order, c, unit);
    assert c.order[i] in c.order && c.order[j] in c.order;
    forall a | a in part ensures Holds(JustShort(c, unit, i, j), a) >= Cost(unit, Get(c, a)) {
      OtherJustFunded(c, unit, i, j, a);
    }
  }

  /** The signer at `j` is topped up, and the funding wallet is left short. */
  function Drained(c: TxCounts, unit: nat, i: nat, j: nat): Native
    requires i < |c.order| && j < |c.order| && Cost(unit, Get(c, c.order[i])) > 0
    requires CanFund(JustShort(c, unit, i, j), c.order[i], Cost(unit, Get(c, c.order[j])), 0)
  {
    Fund(JustShort(c, unit, i, j), c.order[i], c.order[j], Cost(unit, Get(c, c.order[j])), 0)
  }

  lemma JustShortIs(c: TxCounts, unit: nat, i: nat, j: nat)
    requires i < |c.order| && j < |c.order| && Lower(c.order[i]) != Lower(c.order[j]) && Cost(unit, Get(c, c.order[i])) > 0
    ensures Holds(JustShort(c, unit, i, j), c.order[i]) == Cost(unit, Get(c, c.order[i])) + Cost(unit, Get(c, c.order[j])) - 1
    ensures Holds(JustShort(c, unit, i, j), c.order[j]) == 0
  {
  }

  lemma FundMoves(b: Native, funder: Address, who: Address, value: nat, other: Address)
    requires CanFund(b, funder, value, 0) && Lower(funder) != Lower(who)
    ensures Holds(Fund(b, funder, who, value, 0), funder) == Holds(b, funder) - value
    ensures Lower(other) != Lower(funder) ==> Holds(Fund(b, funder, who, value, 0), other) >= Holds(b, other)
  {
  }

  lemma SameFunder(b: Native, funder: Address, spelling: Address, who: Address, value: nat, fee: nat)
    requires Lower(funder) == Lower(spelling)
    ensures CanFund(b, funder, value, fee) <==> CanFund(b, spelling, value, fee)
    ensures CanFund(b, funder, value, fee) ==> Fund(b, funder, who, value, fee) == Fund(b, spelling, who, value, fee)
  {
  }

  lemma OthersDiffer(c: TxCounts, i: nat, j: nat)
    requires Proper(c) && Distinct(c) && i < |c.order| && j < |c.order| && i != j
    ensures Lower(c.order[i]) != Lower(c.order[j])
  {
    assert c.order[i] in c.order && c.order[j] in c.order;
    assert i < j || j < i;
  }

  lemma DrainsOne(c: TxCounts, unit: nat, i: nat, j: nat, funder: Address)
    requires i < |c.order| && j < |c.order| && Lower(c.order[i]) == Lower(funder) && Lower(c.order[i]) != Lower(c.order[j])
    requires Cost(unit, Get(c, c.order[i])) > 0 && Cost(unit, Get(c, c.order[j])) > 0 && Get(c, c.order[j]) > 0
    ensures CanFund(JustShort(c, unit, i, j), c.order[i], Cost(unit, Get(c, c.order[j])), 0)
    ensures AfterTopUp(JustShort(c, unit, i, j), funder, unit, c.order[j], Get(c, c.order[j]), FairWeather()(c.order[j])) == Topped(Drained(c, unit, i, j), true)
    ensures Holds(Drained(c, unit, i, j), c.order[i]) < Cost(unit, Get(c, c.order[i]))
  {
    FairIsFair(c.order[j]);
    JustShortIs(c, unit, i, j);
    FundMoves(JustShort(c, unit, i, j), c.order[i], c.order[j], Cost(unit, Get(c, c.order[j])), funder);
    SameFunder(JustShort(c, unit, i, j), funder, c.order[i], c.order[j], Cost(unit, Get(c, c.order[j])), 0);
  }

  /** Up to and including the signer at `j` every top-up works. */
  lemma UpToDrain(c: TxCounts, unit: nat, i: nat, j: nat, funder: Address)
    requires Proper(c) && unit > 0 && Distinct(c) && i < j < |c.order| && Lower(c.order[i]) == Lower(funder)
    requires Cost(unit, Get(c, c.order[i])) > 0 && Cost(unit, Get(c, c.order[j])) > 0
    ensures CanFund(JustShort(c, unit, i, j), c.order[i], Cost(unit, Get(c, c.order[j])), 0)
    ensures TopUps(c.order[..j] + [c.order[j]], c, JustShort(c, unit, i, j), funder, unit, FairWeather()) == Prefunded(Drained(c, unit, i, j), 0)
    ensures Holds(Drained(c, unit, i, j), c.order[i]) < Cost(unit, Get(c, c.order[i]))
  {
    var b := JustShort(c, unit, i, j);
    assert c.order[j] in c.order;
    OthersDiffer(c, i, j);
    DrainsOne(c, unit, i, j, funder);
    OthersJustFunded(c, unit, i, j, c.order[..j]);
    FundedStay(c.order[..j], c, b, funder, unit, FairWeather());
    LastTopUp(c.order[..j] + [c.order[j]], c.order[..j], c.order[j], c, b, funder, unit, FairWeather());
  }

  lemma Joined(order: seq<Address>, first: seq<Address>, second: seq<Address>, c: TxCounts, b: Native, b': Native,
               funder: Address, unit: nat, weather: Address -> Weather)
    requires order == first + second && TopUps(first, c, b, funder, unit, weather) == Prefunded(b', 0)
    requires TopUps(second, c, b', funder, unit, weather) == Prefunded(b', 0)
    ensures TopUps(order, c, b, funder, unit, weather) == Prefunded(b', 0)
  {
    TopUpsThen(first, second, c, b, funder, unit, weather);
  }

  lemma RestCounts(c: TxCounts, j: nat)
    requires Proper(c) && j < |c.order|
    ensures forall a :: a in c.order[j + 1..] ==> Get(c, a) > 0
  {
    forall a | a in c.order[j + 1..] ensures Get(c, a) > 0 {
      assert a in c.order;
    }
  }

  lemma SplitAt(order: seq<Address>, j: nat)
    requires j < |order|
    ensures order == order[..j] + [order[j]] + order[j + 1..]
  {
  }

  lemma AllWork(c: TxCounts, unit: nat, i: nat, j: nat, funder: Address)
    requires Proper(c) && unit > 0 && Distinct(c) && i < j < |c.order| && Lower(c.order[i]) == Lower(funder)
    requires Cost(unit, Get(c, c.order[i])) > 0 && Cost(unit, Get(c, c.order[j])) > 0
    ensures CanFund(JustShort(c, unit, i, j), c.order[i], Cost(unit, Get(c, c.order[j])), 0)
    ensures TopUps(c.order, c, JustShort(c, unit, i, j), funder, unit, FairWeather()) == Prefunded(Drained(c, unit, i, j), 0)
  {
    var order := c.order;
    UpToDrain(c, unit, i, j, funder);
    RestStaysFunded(c, unit, i, j);
    RestCounts(c, j);
    FundedStay(order[j + 1..], c, Drained(c, unit, i, j), funder, unit, FairWeather());
    SplitAt(order, j);
    Joined(order, order[..j] + [order[j]], order[j + 1..], c, JustShort(c, unit, i, j), Drained(c, unit, i, j), funder, unit, FairWeather());
  }

  /** A funding wallet that is topped up before another signer: all top-ups work,
      and afterwards it has less than its own transactions need. */
  lemma FunderDrained(c: TxCounts, unit: nat, i: nat, j: nat, funder: Address) returns (b: Native)
    requires Proper(c) && unit > 0 && Distinct(c) && i < j < |c.order| && Lower(c.order[i]) == Lower(funder)
    ensures TopUps(c.order, c, b, funder, unit, FairWeather()).failures == 0
    ensures !NeverDry(c, TopUps(c.order, c, b, funder, unit, FairWeather()).balances, unit)
  {
    assert c.order[i] in c.order && c.order[j] in c.order;
    CostIsPositive(unit, Get(c, c.order[i]));
    CostIsPositive(unit, Get(c, c.order[j]));
    b := JustShort(c, unit, i, j);
    AllWork(c, unit, i, j, funder);
    UpToDrain(c, unit, i, j, funder);
    ShortRunsDry(c, Drained(c, unit, i, j), unit, c.order[i]);
  }

  lemma RestStaysFunded(c: TxCounts, unit: nat, i: nat, j: nat)
    requires Proper(c) && unit > 0 && Distinct(c) && i < j < |c.order|
    requires Cost(unit, Get(c, c.order[i])) > 0 && Cost(unit, Get(c, c.order[j])) > 0
    requires CanFund(JustShort(c, unit, i, j), c.order[i], Cost(unit, Get(c, c.order[j])), 0)
    ensures FundedAll(c.order[j + 1..], c, Drained(c, unit, i, j), unit)
  {
    var rest := c.order[j + 1..];
    OthersDiffer(c, i, j);
    forall a | a in rest ensures a in c.order && a != c.order[j] && Lower(a) != Lower(c.order[i]) {
      var k :| 0 <= k < |rest| && rest[k] == a;
      assert c.order[j + 1 + k] == a;
      OthersDiffer(c, i, j + 1 + k);
    }
    OthersJustFunded(c, unit, i, j, rest);
    forall a | a in rest ensures Holds(Drained(c, unit, i, j), a) >= Cost(unit, Get(c, a)) {
      FundMoves(JustShort(c, unit, i, j), c.order[i], c.order[j], Cost(unit, Get(c, c.order[j])), a);
    }
  }

  /** Signers that hold just what the most demanding spelling of each needs: no
      top-up is sent, and an account of two spellings runs dry. */
  lemma SpellingsRunDry(c: TxCounts, funder: Address, unit: nat) returns (b: Native)
    requires Proper(c) && unit > 0 && !Distinct(c)
    ensures TopUps(c.order, c, b, funder, unit, FairWeather()) == Prefunded(b, 0) && !NeverDry(c, b, unit)
  {
    b := Fill(c.order, c, unit);
    FillFunds(c.order, c, unit);
    FundedStay(c.order, c, b, funder, unit, FairWeather());
    FillRunsDry(c, unit);
  }

  /* ---- the guarantee ---- */

  /** Whatever the balances and the weather: if all top-ups worked, the plan can be
      executed in any order and nobody runs dry. */
  ghost predicate Suffices(c: TxCounts, funder: Address, unit: nat) {
    forall b: Native, weather: Address -> Weather :: (forall a :: Ticks(weather(a).clock)) && TopUps(c.order, c, b, funder, unit, weather).failures == 0 ==>
      NeverDry(c, TopUps(c.order, c, b, funder, unit, weather).balances, unit)
  }

  lemma CountsSufficeIff(c: TxCounts, funder: Address, unit: nat)
    requires Proper(c) && unit > 0
    ensures Suffices(c, funder, unit) <==> Distinct(c) && FunderLast(c.order, funder)
  {
    forall a ensures Ticks(FairWeather()(a).clock) {
      FairIsFair(a);
    }
    if !Distinct(c) {
      var b := SpellingsRunDry(c, funder, unit);
    } else if !FunderLast(c.order, funder) {
      var i :| 0 <= i < |c.order| - 1 && Lower(c.order[i]) == Lower(funder);
      var b := FunderDrained(c, unit, i, |c.order| - 1, funder);
    } else {
      forall b: Native, weather: Address -> Weather | TopUps(c.order, c, b, funder, unit, weather).failures == 0
        ensures NeverDry(c, TopUps(c.order, c, b, funder, unit, weather).balances, unit)
      {
        TopUpsFund(c.order, c, b, funder, unit, weather);
        FundedNeverDry(c, TopUps(c.order, c, b, funder, unit, weather).balances, unit);
      }
    }
  }

  /** The guarantee of a prefunded plan, and exactly when it holds: executing the
      plan in any order, each transaction at a gas cost of at most the station's
      amount, no signer runs dry -- if and only if no account signs under two
      spellings and the funding wallet signs nothing or comes up last. */
  lemma PlanNeverRunsDryIff(instructions: seq<Instruction>, accounts: string -> Resolution, funder: Address, unit: nat)
    requires unit > 0
    ensures var c := Counts(instructions, accounts);
            Suffices(c, funder, unit) <==> Distinct(c) && FunderLast(c.order, funder)
  {
    CountsAreCounts(instructions, accounts);
    CountsSufficeIff(Counts(instructions, accounts), funder, unit);
  }

  /* ---- two plans that are not covered ---- */

  /** A transfer of a local investor's. */
  function TransferBy(finId: string): Instruction {
    Instruction(None, Some("transfer"), [], true, Some(finId), None, None, None, None, None)
  }

  lemma TwoTransfers(accounts: string -> Resolution, one: Address, two: Address)
    requires accounts("alice") == Resolved(Some(one)) && accounts("bob") == Resolved(Some(two)) && one != two && one.text != "" && two.text != ""
    ensures Counts([TransferBy("alice"), TransferBy("bob")], accounts) == TxCounts([one, two], map[one := 1, two := 1])
  {
    var a, b := TransferBy("alice"), TransferBy("bob");
    assert [a, b][..1] == [a] && [a][..0] == [];
    assert Signer(a, accounts) == Some(one) && Signer(b, accounts) == Some(two);
    assert Counts([a], accounts) == TxCounts([one], map[one := 1]);
  }

  /** Two investors mapped to one account in two spellings. */
  lemma TwoSpellingsUnderfund(accounts: string -> Resolution, funder: Address, unit: nat)
    requires accounts("alice") == Resolved(Some(Address("0xA"))) && accounts("bob") == Resolved(Some(Address("0xa"))) && unit > 0
    ensures !Suffices(Counts([TransferBy("alice"), TransferBy("bob")], accounts), funder, unit)
  {
    var upper, lower := Address("0xA"), Address("0xa");
    assert upper.text[2] != lower.text[2];
    assert ToLower("0xA") == "0xa" == ToLower("0xa");
    TwoTransfers(accounts, upper, lower);
    SpelledTwice(Counts([TransferBy("alice"), TransferBy("bob")], accounts), upper, lower);
    PlanNeverRunsDryIff([TransferBy("alice"), TransferBy("bob")], accounts, funder, unit);
  }

  lemma SpelledTwice(c: TxCounts, one: Address, two: Address)
    requires c.order == [one, two] && one != two && Lower(one) == Lower(two)
    ensures !Distinct(c)
  {
    assert c.order[0] in c.order && c.order[1] in c.order;
  }

  /** The funding wallet's own transfer, and then another's: not covered. The
      other way round it is. */
  lemma FunderIsDrained(accounts: string -> Resolution, unit: nat)
    requires accounts("alice") == Resolved(Some(Address("0x1"))) && accounts("bob") == Resolved(Some(Address("0x2"))) && unit > 0
    ensures !Suffices(Counts([TransferBy("alice"), TransferBy("bob")], accounts), Address("0x1"), unit)
    ensures Suffices(Counts([TransferBy("alice"), TransferBy("bob")], accounts), Address("0x2"), unit)
  {
    var one, two := Address("0x1"), Address("0x2");
    assert one.text[2] != two.text[2];
    assert ToLower("0x1") == "0x1" && ToLower("0x2") == "0x2";
    TwoTransfers(accounts, one, two);
    InOrder(Counts([TransferBy("alice"), TransferBy("bob")], accounts), one, two);
    PlanNeverRunsDryIff([TransferBy("alice"), TransferBy("bob")], accounts, one, unit);
    PlanNeverRunsDryIff([TransferBy("alice"), TransferBy("bob")], accounts, two, unit);
  }

  lemma InOrder(c: TxCounts, one: Address, two: Address)
    requires c.order == [one, two] && Lower(one) != Lower(two)
    ensures Distinct(c) && !FunderLast(c.order, one) && FunderLast(c.order, two)
  {
    assert Lower(c.order[0]) == Lower(one);
  }
}
