/** What a sequence of admitted instructions of one loan does to the parties, in
    each asset: positions net to zero and depend only on how many instructions
    there were per leg, phase and asset (src/services/onchain/helpers.ts:
    158-176,258-346). One leg may name two assets, since the well-known symbols
    match across each other (lines 239-250). */
module LoanNetting {
  import opened Wrappers
  import opened Intents

  /** An instruction with a destination, and the sequence number it carries. */
  datatype Instruction = Instruction(asset: Asset, source: string, destination: string, quantity: string, sequence: int)

  predicate Admitted(i: Instruction, m: Message) {
    Admit(Request(i.source, Some(i.destination), i.quantity), i.asset, EIP712(m), i.sequence) == Accepted
  }

  ghost predicate AllAdmitted(instructions: seq<Instruction>, m: Message) {
    forall k :: 0 <= k < |instructions| ==> Admitted(instructions[k], m)
  }

  predicate OnLeg(i: Instruction, m: Message, leg: LegType) { DetectLeg(i.asset, EIP712(m)) == Ok(leg) }

  /** The instruction is on this leg and moves this asset. */
  predicate Moves(i: Instruction, m: Message, leg: LegType, id: string) { OnLeg(i, m, leg) && i.asset.assetId == id }

  /** What an instruction adds to a party's position in an asset on a leg,
      whatever number of units `worth` takes a quantity of it to stand for. */
  function Flow(i: Instruction, m: Message, leg: LegType, id: string, party: string, worth: string -> int): int {
    if !Moves(i, m, leg, id) then 0 else
    (if i.destination == party then worth(i.quantity) else 0) - (if i.source == party then worth(i.quantity) else 0)
  }

  function LegPosition(instructions: seq<Instruction>, m: Message, leg: LegType, id: string, party: string, worth: string -> int): int {
    if instructions == [] then 0 else
    LegPosition(instructions[..|instructions| - 1], m, leg, id, party, worth)
    + Flow(instructions[|instructions| - 1], m, leg, id, party, worth)
  }

  /** A party's position in an asset, over both legs. */
  function Position(instructions: seq<Instruction>, m: Message, id: string, party: string, worth: string -> int): int {
    LegPosition(instructions, m, AssetLeg, id, party, worth) + LegPosition(instructions, m, SettlementLeg, id, party, worth)
  }

  predicate InPhase(i: Instruction, m: Message, phase: Phase) { Closing(m, i.sequence) == (phase == Close) }

  /** Instructions of a leg and phase, and those of them that move an asset. */
  function Count(instructions: seq<Instruction>, m: Message, leg: LegType, phase: Phase): nat {
    if instructions == [] then 0 else
    var last := instructions[|instructions| - 1];
    Count(instructions[..|instructions| - 1], m, leg, phase) + if OnLeg(last, m, leg) && InPhase(last, m, phase) then 1 else 0
  }

  function CountOf(instructions: seq<Instruction>, m: Message, leg: LegType, id: string, phase: Phase): nat {
    if instructions == [] then 0 else
    var last := instructions[|instructions| - 1];
    CountOf(instructions[..|instructions| - 1], m, leg, id, phase) + if Moves(last, m, leg, id) && InPhase(last, m, phase) then 1 else 0
  }

  /** The lender gains what the borrower loses; nobody else is touched. */
  function Share(m: Message, party: string, lenderGains: int): int
    requires m.Loan?
  {
    if m.lender == m.borrower then 0
    else if party == m.lender then lenderGains
    else if party == m.borrower then -lenderGains
    else 0
  }

  /** What the lender gains on a leg, by the counts of instructions initiated and closed. */
  function LenderGains(m: Message, leg: LegType, initiated: nat, closed: nat, worth: string -> int): int
    requires m.Loan?
  {
    match leg
    case AssetLeg => (initiated - closed) * worth(m.asset.amount)
    case SettlementLeg => closed * worth(m.loanTerms.returnedMoneyAmount) - initiated * worth(m.loanTerms.borrowedMoneyAmount)
  }

  /** What the lender gains by one instruction. */
  function DueToLender(m: Message, leg: LegType, closing: bool, worth: string -> int): int
    requires m.Loan?
  {
    match leg
    case AssetLeg => if closing then -worth(m.asset.amount) else worth(m.asset.amount)
    case SettlementLeg => if closing then worth(m.loanTerms.returnedMoneyAmount) else -worth(m.loanTerms.borrowedMoneyAmount)
  }

  lemma OneMore(m: Message, leg: LegType, initiated: nat, closed: nat, worth: string -> int)
    requires m.Loan?
    ensures LenderGains(m, leg, initiated + 1, closed, worth) == LenderGains(m, leg, initiated, closed, worth) + DueToLender(m, leg, false, worth)
    ensures LenderGains(m, leg, initiated, closed + 1, worth) == LenderGains(m, leg, initiated, closed, worth) + DueToLender(m, leg, true, worth)
  {
    var a, b, c := worth(m.asset.amount), worth(m.loanTerms.borrowedMoneyAmount), worth(m.loanTerms.returnedMoneyAmount);
    assert (initiated + 1 - closed) * a == (initiated - closed) * a + a && (initiated - (closed + 1)) * a == (initiated - closed) * a - a;
    assert (initiated + 1) * b == initiated * b + b && (closed + 1) * c == closed * c + c;
  }

  /** The instruction moves the amount due between the two parties. */
  predicate FlowsDue(i: Instruction, m: Message, leg: LegType, id: string, party: string, worth: string -> int)
    requires m.Loan?
  {
    Moves(i, m, leg, id) ==> Flow(i, m, leg, id, party, worth) == Share(m, party, DueToLender(m, leg, Closing(m, i.sequence), worth))
  }

  lemma AdmittedFlowsDue(i: Instruction, m: Message, leg: LegType, id: string, party: string, worth: string -> int)
    requires m.Loan? && Admitted(i, m)
    ensures FlowsDue(i, m, leg, id, party, worth)
  {
    AdmittedIff(Request(i.source, Some(i.destination), i.quantity), i.asset, EIP712(m), i.sequence);
  }

  lemma ShareAdds(m: Message, party: string, x: int, y: int)
    requires m.Loan?
    ensures Share(m, party, x + y) == Share(m, party, x) + Share(m, party, y)
  {
  }

  lemma FlowAdds(i: Instruction, m: Message, leg: LegType, id: string, party: string, initiated: nat, closed: nat, worth: string -> int)
    requires m.Loan? && Moves(i, m, leg, id) && FlowsDue(i, m, leg, id, party, worth)
    ensures Share(m, party, LenderGains(m, leg, initiated, closed, worth)) + Flow(i, m, leg, id, party, worth)
         == Share(m, party, if Closing(m, i.sequence) then LenderGains(m, leg, initiated, closed + 1, worth)
                            else LenderGains(m, leg, initiated + 1, closed, worth))
  {
    OneMore(m, leg, initiated, closed, worth);
    ShareAdds(m, party, LenderGains(m, leg, initiated, closed, worth), DueToLender(m, leg, Closing(m, i.sequence), worth));
  }

  function Gains(instructions: seq<Instruction>, m: Message, leg: LegType, id: string, worth: string -> int): int
    requires m.Loan?
  {
    LenderGains(m, leg, CountOf(instructions, m, leg, id, Initiate), CountOf(instructions, m, leg, id, Close), worth)
  }

  lemma NetsOneMore(init: seq<Instruction>, last: Instruction, m: Message, leg: LegType, id: string, party: string, worth: string -> int)
    requires m.Loan? && FlowsDue(last, m, leg, id, party, worth)
    requires LegPosition(init, m, leg, id, party, worth) == Share(m, party, Gains(init, m, leg, id, worth))
    ensures LegPosition(init + [last], m, leg, id, party, worth) == Share(m, party, Gains(init + [last], m, leg, id, worth))
  {
    var all := init + [last];
    assert all[..|all| - 1] == init;
    if Moves(last, m, leg, id) {
      FlowAdds(last, m, leg, id, party, CountOf(init, m, leg, id, Initiate), CountOf(init, m, leg, id, Close), worth);
    }
  }

  lemma NothingNets(m: Message, leg: LegType, id: string, party: string, worth: string -> int)
    requires m.Loan?
    ensures LegPosition([], m, leg, id, party, worth) == Share(m, party, Gains([], m, leg, id, worth))
  {
    assert LenderGains(m, leg, 0, 0, worth) == 0;
  }

  lemma {:induction false} FlowsNet(instructions: seq<Instruction>, m: Message, leg: LegType, id: string, party: string, worth: string -> int)
    requires m.Loan? && forall k :: 0 <= k < |instructions| ==> FlowsDue(instructions[k], m, leg, id, party, worth)
    ensures LegPosition(instructions, m, leg, id, party, worth) == Share(m, party, Gains(instructions, m, leg, id, worth))
  {
    if instructions == [] {
      NothingNets(m, leg, id, party, worth);
    } else {
      var init, last := instructions[..|instructions| - 1], instructions[|instructions| - 1];
      FlowsNet(init, m, leg, id, party, worth);
      assert instructions == init + [last];
      NetsOneMore(init, last, m, leg, id, party, worth);
    }
  }

  lemma LegNets(instructions: seq<Instruction>, m: Message, leg: LegType, id: string, party: string, worth: string -> int)
    requires m.Loan? && AllAdmitted(instructions, m)
    ensures LegPosition(instructions, m, leg, id, party, worth) == Share(m, party, Gains(instructions, m, leg, id, worth))
  {
    forall k | 0 <= k < |instructions| ensures FlowsDue(instructions[k], m, leg, id, party, worth) {
      AdmittedFlowsDue(instructions[k], m, leg, id, party, worth);
    }
    FlowsNet(instructions, m, leg, id, party, worth);
  }

  /** Whatever the instructions and their order, every party's position in an
      asset is its share of what the counts of that asset per leg and phase say
      the lender gains. */
  lemma PositionsNet(instructions: seq<Instruction>, m: Message, id: string, party: string, worth: string -> int)
    requires m.Loan? && AllAdmitted(instructions, m)
    ensures Position(instructions, m, id, party, worth)
         == Share(m, party, Gains(instructions, m, AssetLeg, id, worth) + Gains(instructions, m, SettlementLeg, id, worth))
  {
    LegNets(instructions, m, AssetLeg, id, party, worth);
    LegNets(instructions, m, SettlementLeg, id, party, worth);
    ShareAdds(m, party, Gains(instructions, m, AssetLeg, id, worth), Gains(instructions, m, SettlementLeg, id, worth));
  }

  /** What one party gains another loses: in every asset the two parties cancel
      and everybody else stays where they were. */
  lemma PositionsSumToZero(instructions: seq<Instruction>, m: Message, id: string, other: string, worth: string -> int)
    requires m.Loan? && AllAdmitted(instructions, m) && other != m.lender && other != m.borrower
    ensures m.lender != m.borrower ==>
      Position(instructions, m, id, m.lender, worth) + Position(instructions, m, id, m.borrower, worth) == 0
    ensures m.lender == m.borrower ==> Position(instructions, m, id, m.lender, worth) == 0
    ensures Position(instructions, m, id, other, worth) == 0
  {
    PositionsNet(instructions, m, id, m.lender, worth);
    PositionsNet(instructions, m, id, m.borrower, worth);
    PositionsNet(instructions, m, id, other, worth);
  }

  predicate SameCounts(one: seq<Instruction>, two: seq<Instruction>, m: Message, id: string) {
    && CountOf(one, m, AssetLeg, id, Initiate) == CountOf(two, m, AssetLeg, id, Initiate)
    && CountOf(one, m, AssetLeg, id, Close) == CountOf(two, m, AssetLeg, id, Close)
    && CountOf(one, m, SettlementLeg, id, Initiate) == CountOf(two, m, SettlementLeg, id, Initiate)
    && CountOf(one, m, SettlementLeg, id, Close) == CountOf(two, m, SettlementLeg, id, Close)
  }

  /** Two runs with the same counts of an asset leave everybody with the same
      position in it. */
  lemma OnlyCountsMatter(one: seq<Instruction>, two: seq<Instruction>, m: Message, id: string, party: string, worth: string -> int)
    requires m.Loan? && AllAdmitted(one, m) && AllAdmitted(two, m) && SameCounts(one, two, m, id)
    ensures Position(one, m, id, party, worth) == Position(two, m, id, party, worth)
  {
    PositionsNet(one, m, id, party, worth);
    PositionsNet(two, m, id, party, worth);
    assert Gains(one, m, AssetLeg, id, worth) == Gains(two, m, AssetLeg, id, worth);
    assert Gains(one, m, SettlementLeg, id, worth) == Gains(two, m, SettlementLeg, id, worth);
  }

  /* ---- one asset to a leg ---- */

  ghost predicate OneAsset(instructions: seq<Instruction>, m: Message, leg: LegType, id: string) {
    forall k :: 0 <= k < |instructions| && OnLeg(instructions[k], m, leg) ==> instructions[k].asset.assetId == id
  }

  predicate SameOnLeg(instructions: seq<Instruction>, m: Message, leg: LegType, id: string) {
    && CountOf(instructions, m, leg, id, Initiate) == Count(instructions, m, leg, Initiate)
    && CountOf(instructions, m, leg, id, Close) == Count(instructions, m, leg, Close)
  }

  lemma {:induction false} AssetCountsAreNoMore(instructions: seq<Instruction>, m: Message, leg: LegType, id: string, phase: Phase)
    ensures CountOf(instructions, m, leg, id, phase) <= Count(instructions, m, leg, phase)
  {
    if instructions != [] {
      AssetCountsAreNoMore(instructions[..|instructions| - 1], m, leg, id, phase);
    }
  }

  lemma OneMoreCounted(init: seq<Instruction>, last: Instruction, m: Message, leg: LegType, id: string, phase: Phase)
    ensures Count(init + [last], m, leg, phase) == Count(init, m, leg, phase) + if OnLeg(last, m, leg) && InPhase(last, m, phase) then 1 else 0
    ensures CountOf(init + [last], m, leg, id, phase) == CountOf(init, m, leg, id, phase) + if Moves(last, m, leg, id) && InPhase(last, m, phase) then 1 else 0
    ensures CountOf(init, m, leg, id, phase) <= Count(init, m, leg, phase)
  {
    assert (init + [last])[..|init + [last]| - 1] == init;
    AssetCountsAreNoMore(init, m, leg, id, phase);
  }

  lemma OneMoreOnLeg(init: seq<Instruction>, last: Instruction, m: Message, leg: LegType, id: string)
    ensures SameOnLeg(init + [last], m, leg, id) <==> SameOnLeg(init, m, leg, id) && (OnLeg(last, m, leg) ==> last.asset.assetId == id)
  {
    OneMoreCounted(init, last, m, leg, id, Initiate);
    OneMoreCounted(init, last, m, leg, id, Close);
    assert InPhase(last, m, Initiate) != InPhase(last, m, Close);
  }

  /** The counts of a leg are those of an asset exactly if the leg names no other. */
  lemma {:induction false} LegCountsAreAssetCountsIff(instructions: seq<Instruction>, m: Message, leg: LegType, id: string)
    ensures SameOnLeg(instructions, m, leg, id) <==> OneAsset(instructions, m, leg, id)
  {
    if instructions != [] {
      var init, last := instructions[..|instructions| - 1], instructions[|instructions| - 1];
      LegCountsAreAssetCountsIff(init, m, leg, id);
      assert instructions == init + [last];
      OneMoreOnLeg(init, last, m, leg, id);
    }
  }

  /** One instruction per leg and phase, in any order, and one asset to a leg:
      the asset is back where it was, and in the settlement asset the borrower
      has paid the lender returned minus borrowed. */
  lemma FullCycle(instructions: seq<Instruction>, m: Message, asset: string, money: string, party: string, worth: string -> int)
    requires m.Loan? && AllAdmitted(instructions, m) && asset != money
    requires OneAsset(instructions, m, AssetLeg, asset) && OneAsset(instructions, m, SettlementLeg, money)
    requires Count(instructions, m, AssetLeg, Initiate) == Count(instructions, m, AssetLeg, Close) == 1
    requires Count(instructions, m, SettlementLeg, Initiate) == Count(instructions, m, SettlementLeg, Close) == 1
    ensures Position(instructions, m, asset, party, worth) == 0
    ensures Position(instructions, m, money, party, worth)
         == Share(m, party, worth(m.loanTerms.returnedMoneyAmount) - worth(m.loanTerms.borrowedMoneyAmount))
  {
    LegCountsAreAssetCountsIff(instructions, m, AssetLeg, asset);
    LegCountsAreAssetCountsIff(instructions, m, SettlementLeg, money);
    NoneOfTheOther(instructions, m, AssetLeg, asset, money);
    NoneOfTheOther(instructions, m, SettlementLeg, money, asset);
    PositionsNet(instructions, m, asset, party, worth);
    PositionsNet(instructions, m, money, party, worth);
    OnceEach(m, worth);
  }

  lemma {:induction false} NoneOfTheOther(instructions: seq<Instruction>, m: Message, leg: LegType, id: string, other: string)
    requires OneAsset(instructions, m, leg, id) && other != id
    ensures CountOf(instructions, m, leg, other, Initiate) == CountOf(instructions, m, leg, other, Close) == 0
  {
    if instructions != [] {
      NoneOfTheOther(instructions[..|instructions| - 1], m, leg, id, other);
    }
  }

  lemma OnceEach(m: Message, worth: string -> int)
    requires m.Loan?
    ensures LenderGains(m, AssetLeg, 1, 1, worth) == 0 == LenderGains(m, AssetLeg, 0, 0, worth)
    ensures LenderGains(m, SettlementLeg, 1, 1, worth) == worth(m.loanTerms.returnedMoneyAmount) - worth(m.loanTerms.borrowedMoneyAmount)
    ensures LenderGains(m, SettlementLeg, 0, 0, worth) == 0
  {
  }

  /* ---- two symbols on one leg ---- */

  function DollarLoan(): Message {
    Loan("borrower", "lender", EipTerm("bond", None, "10"), EipTerm("USD", Some("fiat"), "0"), LoanTerms("100", "105"))
  }

  /** A loan lent in USD and paid back in USDC: both are admitted on the
      settlement leg, and in neither is the position what the leg's counts say. */
  function MixedCycle(): seq<Instruction> {
    [Instruction(Asset("USD", "finp2p"), "lender", "borrower", "100", 2),
     Instruction(Asset("USDC", "finp2p"), "borrower", "lender", "105", 6)]
  }

  lemma MixedIsAdmitted()
    ensures AllAdmitted(MixedCycle(), DollarLoan())
    ensures OnLeg(MixedCycle()[0], DollarLoan(), SettlementLeg) && OnLeg(MixedCycle()[1], DollarLoan(), SettlementLeg)
  {
    assert "bond"[0] == 'b' && "USD"[0] == 'U' && "USDC"[0] == 'U';
    AdmittedIff(Request("lender", Some("borrower"), "100"), Asset("USD", "finp2p"), EIP712(DollarLoan()), 2);
    AdmittedIff(Request("borrower", Some("lender"), "105"), Asset("USDC", "finp2p"), EIP712(DollarLoan()), 6);
  }

  lemma MixedSymbolsPart(worth: string -> int)
    requires worth("100") == 100 && worth("105") == 105
    ensures AllAdmitted(MixedCycle(), DollarLoan())
    ensures Count(MixedCycle(), DollarLoan(), SettlementLeg, Initiate) == Count(MixedCycle(), DollarLoan(), SettlementLeg, Close) == 1
    ensures LegPosition(MixedCycle(), DollarLoan(), SettlementLeg, "USD", "lender", worth) == -100
    ensures LegPosition(MixedCycle(), DollarLoan(), SettlementLeg, "USDC", "lender", worth) == 105
    ensures !OneAsset(MixedCycle(), DollarLoan(), SettlementLeg, "USD") && !OneAsset(MixedCycle(), DollarLoan(), SettlementLeg, "USDC")
  {
    MixedIsAdmitted();
    var all, m := MixedCycle(), DollarLoan();
    assert |"USD"| != |"USDC"| && "lender"[0] != "borrower"[0];
    assert all[..1] == [all[0]] && [all[0]][..0] == [];
    assert Count([all[0]], m, SettlementLeg, Initiate) == 1 && Count([all[0]], m, SettlementLeg, Close) == 0;
    assert LegPosition([all[0]], m, SettlementLeg, "USD", "lender", worth) == -100;
    assert LegPosition([all[0]], m, SettlementLeg, "USDC", "lender", worth) == 0;
  }
}
