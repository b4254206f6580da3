/** Gas at plan approval: the station's top-up (src/services/gas-station/
    gas-station.ts) and the option that funds a plan's signers
    (src/services/plan-approval/options/gas-prefunding-option.ts). */
module Gas {
  import opened Wrappers
  import opened Chain
  import opened Plans

  const GAS_FUNDING_TIMEOUT_MS := 60000
  const GAS_FUNDING_POLL_INTERVAL_MS := 1000

  /** Native balances, by account; the chain does not mind an address's case. */
  type Native = map<Address, nat>

  function Holds(b: Native, who: Address): nat { if Lower(who) in b then b[Lower(who)] else 0 }

  function Set(b: Native, who: Address, n: nat): Native { b[Lower(who) := n] }

  /** The amount for each of `n` transactions. */
  function Cost(unit: nat, n: nat): nat { if n == 0 then 0 else Cost(unit, n - 1) + unit }

  lemma {:induction false} CostIs(unit: nat, n: nat)
    ensures Cost(unit, n) == unit * n
  {
    if n > 0 {
      CostIs(unit, n - 1);
    }
  }

  lemma {:induction false} CostAdds(unit: nat, m: nat, n: nat)
    ensures Cost(unit, m + n) == Cost(unit, m) + Cost(unit, n)
  {
    if n > 0 {
      CostAdds(unit, m, n - 1);
    }
  }

  /** The amount for that many transactions, and at least for one. */
  function Threshold(unit: nat, txCount: nat): (threshold: nat)
    ensures txCount == 0 ==> threshold == unit
    ensures txCount > 0 ==> threshold == Cost(unit, txCount)
  {
    assert Cost(unit, 1) == Cost(unit, 0) + unit;
    Cost(unit, if txCount > 1 then txCount else 1)
  }

  predicate CanFund(b: Native, funder: Address, value: nat, fee: nat) { Holds(b, funder) >= value + fee }

  /** The mined top-up: the value reaches the wallet, the fee is gone. */
  function Fund(b: Native, funder: Address, who: Address, value: nat, fee: nat): Native
    requires CanFund(b, funder, value, fee)
  {
    var paid := Set(b, funder, Holds(b, funder) - value - fee);
    Set(paid, who, Holds(paid, who) + value)
  }

  /** A top-up moves its value between the two wallets and costs the funding one
      the fee; nobody else notices. */
  lemma FundMoves(b: Native, funder: Address, who: Address, value: nat, fee: nat, other: Address)
    requires CanFund(b, funder, value, fee)
    ensures var after := Fund(b, funder, who, value, fee);
            && (Lower(who) != Lower(funder) ==>
                  Holds(after, who) == Holds(b, who) + value && Holds(after, funder) + value + fee == Holds(b, funder))
            && (Lower(who) == Lower(funder) ==> Holds(after, funder) + fee == Holds(b, funder))
            && (Lower(other) != Lower(who) && Lower(other) != Lower(funder) ==> Holds(after, other) == Holds(b, other))
  {
  }

  /** What the environment does with one top-up: whether the transaction is
      accepted, before which poll it is mined, what it costs, and what the clock
      reads whenever the loop looks at it. */
  datatype Weather = Weather(accepted: bool, minedAt: nat, fee: nat, clock: nat -> nat)

  /** Every sleep takes at least the poll interval. */
  ghost predicate Ticks(clock: nat -> nat) { forall k: nat :: clock(k) + GAS_FUNDING_POLL_INTERVAL_MS <= clock(k + 1) }

  predicate MinedInTime(w: Weather) { w.accepted && w.clock(w.minedAt) < w.clock(0) + GAS_FUNDING_TIMEOUT_MS }

  lemma {:induction false} ClockAdvances(clock: nat -> nat, j: nat, k: nat)
    requires Ticks(clock) && j <= k
    ensures clock(j) <= clock(k)
    decreases k
  {
    if j < k {
      ClockAdvances(clock, j, k - 1);
      assert clock(k - 1) + GAS_FUNDING_POLL_INTERVAL_MS <= clock(k - 1 + 1);
    }
  }

  /** What one top-up leaves, and whether it is taken to have worked. */
  datatype Topped = Topped(balances: Native, ok: bool)

  function AfterTopUp(b: Native, funder: Address, unit: nat, who: Address, txCount: nat, w: Weather): Topped {
    var threshold := Threshold(unit, txCount);
    if Holds(b, who) >= threshold then Topped(b, true)
    else if !CanFund(b, funder, threshold, w.fee) || !MinedInTime(w) then Topped(b, false)
    else Topped(Fund(b, funder, who, threshold, w.fee), true)
  }

  class GasStation {
    const funder: Address
    const unit: nat              // parseEther(amount)
    var balances: Native
    var sent: nat                // the value of all top-ups submitted so far

    constructor (funder: Address, unit: nat, balances: Native)
      ensures this.funder == funder && this.unit == unit && this.balances == balances && sent == 0
    {
      this.funder, this.unit, this.balances, this.sent := funder, unit, balances, 0;
    }

    /** Success means the wallet holds the threshold. Either nothing was mined,
        or exactly the threshold was sent, to a wallet that was below it; a
        top-up the environment mines in time works. */
    method EnsureGas(who: Address, txCount: nat, w: Weather) returns (r: Result<()>, polls: nat)
      requires Ticks(w.clock)
      modifies this
      ensures Topped(balances, r.Ok?) == AfterTopUp(old(balances), funder, unit, who, txCount, w)
      ensures r.Ok? ==> Holds(balances, who) >= Cost(unit, txCount) && Holds(balances, who) >= unit
      ensures old(sent) <= sent <= old(sent) + if Holds(old(balances), who) < Threshold(unit, txCount) then Threshold(unit, txCount) else 0
      ensures polls <= GAS_FUNDING_TIMEOUT_MS / GAS_FUNDING_POLL_INTERVAL_MS
    {
      polls := 0;
      var threshold := Threshold(unit, txCount);
      var balance := Holds(balances, who);
      if balance >= threshold { return Ok(()), polls; }
      if !w.accepted || !CanFund(balances, funder, threshold, w.fee) { return Err("insufficient funds"), polls; }
      sent := sent + threshold;
      var start := w.clock(0);
      var deadline := start + GAS_FUNDING_TIMEOUT_MS;
      while w.clock(polls) < deadline
        invariant start + polls * GAS_FUNDING_POLL_INTERVAL_MS <= w.clock(polls)
        invariant polls <= 60 && polls <= w.minedAt
        invariant sent == old(sent) + threshold && balances == old(balances)
        decreases deadline - w.clock(polls)
      {
        assert w.clock(polls) + GAS_FUNDING_POLL_INTERVAL_MS <= w.clock(polls + 1);
        // while it sleeps, the top-up may be mined
        if polls == w.minedAt {
          balances := Fund(balances, funder, who, threshold, w.fee);
        }
        polls := polls + 1;
        balance := Holds(balances, who);
        if balance >= threshold { return Ok(()), polls; }
      }
      ClockAdvances(w.clock, polls, w.minedAt);
      return Err("top-up did not reflect on-chain"), polls;
    }
  }

  /* ---- prefunding a plan ---- */

  /** resolveAccount on a finId. */
  datatype Resolution = Resolved(address: Option<Address>) | Unresolvable

  /** The wallet that signs an instruction: the source investor's, for a local
      transfer, hold or redeem. */
  function Signer(i: Instruction, accounts: string -> Resolution): Option<Address> {
    if !i.local || i.kind !in {Some("transfer"), Some("hold"), Some("redeem")} || !Given(i.sourceFinId) then None
    else match accounts(i.sourceFinId.value)
         case Unresolvable => None
         case Resolved(address) => if address.Some? && address.value.text != "" then address else None
  }

  function SignedBy(instructions: seq<Instruction>, accounts: string -> Resolution, who: Address): nat {
    if instructions == [] then 0 else
    SignedBy(instructions[..|instructions| - 1], accounts, who)
    + if Signer(instructions[|instructions| - 1], accounts) == Some(who) then 1 else 0
  }

  function Signed(instructions: seq<Instruction>, accounts: string -> Resolution): nat {
    if instructions == [] then 0 else
    Signed(instructions[..|instructions| - 1], accounts)
    + if Signer(instructions[|instructions| - 1], accounts).Some? then 1 else 0
  }

  /** txCounts: its keys in insertion order, and the count of each. */
  datatype TxCounts = TxCounts(order: seq<Address>, counts: map<Address, nat>)

  function Get(c: TxCounts, who: Address): nat { if who in c.counts then c.counts[who] else 0 }

  ghost predicate Proper(c: TxCounts) {
    && (forall a :: a in c.order <==> a in c.counts)
    && (forall i, j :: 0 <= i < j < |c.order| ==> c.order[i] != c.order[j])
    && (forall a :: a in c.counts ==> c.counts[a] > 0)
  }

  /** The sum of the counts of some keys. */
  function Counted(order: seq<Address>, c: TxCounts): nat {
    if order == [] then 0 else Counted(order[..|order| - 1], c) + Get(c, order[|order| - 1])
  }

  function Increment(c: TxCounts, who: Address): TxCounts {
    TxCounts(if who in c.counts then c.order else c.order + [who], c.counts[who := Get(c, who) + 1])
  }

  lemma {:induction false} IncrementAbsent(order: seq<Address>, c: TxCounts, who: Address)
    requires who !in order
    ensures Counted(order, Increment(c, who)) == Counted(order, c)
  {
    if order != [] {
      IncrementAbsent(order[..|order| - 1], c, who);
    }
  }

  lemma {:induction false} IncrementPresent(order: seq<Address>, c: TxCounts, who: Address)
    requires who in order && forall i, j :: 0 <= i < j < |order| ==> order[i] != order[j]
    ensures Counted(order, Increment(c, who)) == Counted(order, c) + 1
  {
    var init, last := order[..|order| - 1], order[|order| - 1];
    if last == who {
      IncrementAbsent(init, c, who);
    } else {
      IncrementPresent(init, c, who);
    }
  }

  lemma IncrementProper(c: TxCounts, who: Address)
    requires Proper(c)
    ensures Proper(Increment(c, who))
  {
    if who !in c.counts {
      var order := c.order + [who];
      forall i, j | 0 <= i < j < |order| ensures order[i] != order[j] {
        assert order[i] in c.order;
      }
    }
  }

  lemma IncrementCounts(c: TxCounts, who: Address)
    requires Proper(c)
    ensures Counted(Increment(c, who).order, Increment(c, who)) == Counted(c.order, c) + 1
  {
    if who in c.counts {
      IncrementPresent(c.order, c, who);
    } else {
      IncrementAbsent(c.order, c, who);
      assert Increment(c, who).order[..|c.order|] == c.order;
    }
  }

  /** The loop's invariant: the counts are those of the instructions so far. */
  ghost predicate CountsOf(c: TxCounts, instructions: seq<Instruction>, accounts: string -> Resolution) {
    && Proper(c)
    && GetsOf(c, instructions, accounts)
    && Counted(c.order, c) == Signed(instructions, accounts)
  }

  lemma OneMoreSigned(instructions: seq<Instruction>, next: Instruction, accounts: string -> Resolution)
    ensures Signed(instructions + [next], accounts) == Signed(instructions, accounts) + if Signer(next, accounts).Some? then 1 else 0
  {
    assert (instructions + [next])[..|instructions + [next]| - 1] == instructions;
  }

  lemma OneMoreSignedBy(instructions: seq<Instruction>, next: Instruction, accounts: string -> Resolution, a: Address)
    ensures SignedBy(instructions + [next], accounts, a)
         == SignedBy(instructions, accounts, a) + if Signer(next, accounts) == Some(a) then 1 else 0
  {
    assert (instructions + [next])[..|instructions + [next]| - 1] == instructions;
  }

  function Tally(c: TxCounts, signer: Option<Address>): TxCounts { if signer.Some? then Increment(c, signer.value) else c }

  lemma TallyKeepsProper(c: TxCounts, signer: Option<Address>)
    requires Proper(c)
    ensures Proper(Tally(c, signer))
    ensures Counted(Tally(c, signer).order, Tally(c, signer)) == Counted(c.order, c) + if signer.Some? then 1 else 0
  {
    if signer.Some? {
      IncrementProper(c, signer.value);
      IncrementCounts(c, signer.value);
    }
  }

  /** The counts are those of the instructions so far. */
  ghost predicate GetsOf(c: TxCounts, instructions: seq<Instruction>, accounts: string -> Resolution) {
    forall a :: Get(c, a) == SignedBy(instructions, accounts, a)
  }

  lemma TallyKeepsGets(c: TxCounts, instructions: seq<Instruction>, next: Instruction, accounts: string -> Resolution)
    requires GetsOf(c, instructions, accounts)
    ensures GetsOf(Tally(c, Signer(next, accounts)), instructions + [next], accounts)
  {
    forall a ensures Get(Tally(c, Signer(next, accounts)), a) == SignedBy(instructions + [next], accounts, a) {
      OneMoreSignedBy(instructions, next, accounts, a);
      assert Get(c, a) == SignedBy(instructions, accounts, a);
    }
  }

  lemma CountOne(c: TxCounts, instructions: seq<Instruction>, next: Instruction, accounts: string -> Resolution)
    requires CountsOf(c, instructions, accounts)
    ensures CountsOf(Tally(c, Signer(next, accounts)), instructions + [next], accounts)
  {
    TallyKeepsProper(c, Signer(next, accounts));
    TallyKeepsGets(c, instructions, next, accounts);
    OneMoreSigned(instructions, next, accounts);
  }

  /** txCounts after the instructions, keys in the order in which they came up. */
  function Counts(instructions: seq<Instruction>, accounts: string -> Resolution): TxCounts {
    if instructions == [] then TxCounts([], map[]) else
    Tally(Counts(instructions[..|instructions| - 1], accounts), Signer(instructions[|instructions| - 1], accounts))
  }

  lemma {:induction false} CountsAreCounts(instructions: seq<Instruction>, accounts: string -> Resolution)
    ensures CountsOf(Counts(instructions, accounts), instructions, accounts)
  {
    if instructions != [] {
      var init, last := instructions[..|instructions| - 1], instructions[|instructions| - 1];
      CountsAreCounts(init, accounts);
      assert instructions == init + [last];
      CountOne(Counts(init, accounts), init, last, accounts);
    }
  }

  method CountTransactions(instructions: seq<Instruction>, accounts: string -> Resolution) returns (c: TxCounts)
    ensures c == Counts(instructions, accounts) && CountsOf(c, instructions, accounts)
  {
    c := TxCounts([], map[]);
    for k := 0 to |instructions|
      invariant c == Counts(instructions[..k], accounts)
    {
      var instruction := instructions[k];
      assert instructions[..k + 1][..k] == instructions[..k];
      if !instruction.local { continue; }
      if instruction.kind !in {Some("transfer"), Some("hold"), Some("redeem")} { continue; }
      if !Given(instruction.sourceFinId) { continue; }
      var resolution := accounts(instruction.sourceFinId.value);
      if resolution.Resolved? && resolution.address.Some? && resolution.address.value.text != "" {
        c := Increment(c, resolution.address.value);
      }
    }
    assert instructions[..|instructions|] == instructions;
    CountsAreCounts(instructions, accounts);
  }

  /** Each of these wallets holds the amount for each of its instructions. */
  ghost predicate FundedAll(order: seq<Address>, c: TxCounts, b: Native, unit: nat) {
    forall a :: a in order ==> Holds(b, a) >= Cost(unit, Get(c, a))
  }

  /** The top-ups, one signer after the other: what they leave, and how many failed. */
  datatype Prefunded = Prefunded(balances: Native, failures: nat)

  function TopUps(order: seq<Address>, c: TxCounts, b: Native, funder: Address, unit: nat, weather: Address -> Weather): Prefunded {
    if order == [] then Prefunded(b, 0) else
    var before, who := TopUps(order[..|order| - 1], c, b, funder, unit, weather), order[|order| - 1];
    var topped := AfterTopUp(before.balances, funder, unit, who, Get(c, who), weather(who));
    Prefunded(topped.balances, before.failures + if topped.ok then 0 else 1)
  }

  /** The funding wallet signs nothing, or is the last to be topped up. */
  predicate FunderLast(order: seq<Address>, funder: Address) {
    forall i :: 0 <= i < |order| - 1 ==> Lower(order[i]) != Lower(funder)
  }

  lemma ToppedLeavesOthers(b: Native, funder: Address, unit: nat, who: Address, txCount: nat, w: Weather, other: Address)
    requires Lower(other) != Lower(funder)
    ensures Holds(AfterTopUp(b, funder, unit, who, txCount, w).balances, other) >= Holds(b, other)
  {
  }

  lemma ToppedHolds(b: Native, funder: Address, unit: nat, who: Address, txCount: nat, w: Weather)
    requires AfterTopUp(b, funder, unit, who, txCount, w).ok
    ensures Holds(AfterTopUp(b, funder, unit, who, txCount, w).balances, who) >= Cost(unit, txCount)
  {
    if txCount == 0 {
      assert Cost(unit, 0) == 0;
    }
  }

  /** If every top-up worked, every signer holds the amount for each of its
      instructions -- unless the funding wallet paid for others after its own. */
  lemma {:induction false} TopUpsFund(order: seq<Address>, c: TxCounts, b: Native, funder: Address, unit: nat, weather: Address -> Weather)
    requires FunderLast(order, funder) && TopUps(order, c, b, funder, unit, weather).failures == 0
    ensures FundedAll(order, c, TopUps(order, c, b, funder, unit, weather).balances, unit)
  {
    if order != [] {
      var init, who := order[..|order| - 1], order[|order| - 1];
      var before := TopUps(init, c, b, funder, unit, weather).balances;
      TopUpsFund(init, c, b, funder, unit, weather);
      ToppedHolds(before, funder, unit, who, Get(c, who), weather(who));
      forall a | a in init ensures Holds(TopUps(order, c, b, funder, unit, weather).balances, a) >= Cost(unit, Get(c, a)) {
        ToppedLeavesOthers(before, funder, unit, who, Get(c, who), weather(who), a);
      }
      assert order == init + [who];
    }
  }

  lemma CountedNext(c: TxCounts, k: nat, unit: nat)
    requires k < |c.order|
    ensures Cost(unit, Counted(c.order[..k + 1], c)) == Cost(unit, Counted(c.order[..k], c)) + Cost(unit, Get(c, c.order[k]))
  {
    CostAdds(unit, Counted(c.order[..k], c), Get(c, c.order[k]));
    assert c.order[..k + 1][..k] == c.order[..k];
  }

  method TopUpAll(station: GasStation, c: TxCounts, weather: Address -> Weather) returns (failures: nat)
    requires forall i :: 0 <= i < |c.order| ==> Get(c, c.order[i]) > 0 && Ticks(weather(c.order[i]).clock)
    modifies station
    ensures Prefunded(station.balances, failures) == TopUps(c.order, c, old(station.balances), station.funder, station.unit, weather)
    ensures station.sent <= old(station.sent) + Cost(station.unit, Counted(c.order, c))
  {
    failures := 0;
    for k := 0 to |c.order|
      invariant Prefunded(station.balances, failures) == TopUps(c.order[..k], c, old(station.balances), station.funder, station.unit, weather)
      invariant station.sent <= old(station.sent) + Cost(station.unit, Counted(c.order[..k], c))
    {
      var who := c.order[k];
      CountedNext(c, k, station.unit);
      assert c.order[..k + 1][..k] == c.order[..k];
      var r, polls := station.EnsureGas(who, Get(c, who), weather(who));
      if r.Err? { failures := failures + 1; }   // logged and passed over
    }
    assert c.order[..|c.order|] == c.order;
  }

  /** GasPrefundingOption.apply. `failures` counts top-ups that threw. If none did
      and the funding wallet signs nothing or comes last, every signer holds the
      station's amount for each of its instructions; and whatever happened, no
      more than that was sent for all of them. */
  method Prefund(station: GasStation, plan: Plan, accounts: string -> Resolution, weather: Address -> Weather) returns (failures: nat, c: TxCounts)
    requires forall a :: Ticks(weather(a).clock)
    modifies station
    ensures c == Counts(plan.instructions, accounts) && CountsOf(c, plan.instructions, accounts)
    ensures Prefunded(station.balances, failures) == TopUps(c.order, c, old(station.balances), station.funder, station.unit, weather)
    ensures failures == 0 && FunderLast(c.order, station.funder) ==> forall a :: a in c.order ==> Holds(station.balances, a) >= station.unit * Get(c, a)
    ensures station.sent <= old(station.sent) + station.unit * Signed(plan.instructions, accounts)
  {
    c := CountTransactions(plan.instructions, accounts);
    failures := TopUpAll(station, c, weather);
    CostIs(station.unit, Signed(plan.instructions, accounts));
    if failures == 0 && FunderLast(c.order, station.funder) {
      TopUpsFund(c.order, c, old(station.balances), station.funder, station.unit, weather);
      forall a | a in c.order ensures Holds(station.balances, a) >= station.unit * Get(c, a) {
        CostIs(station.unit, Get(c, a));
      }
    }
  }
}
