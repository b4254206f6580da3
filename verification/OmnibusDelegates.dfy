/** The omnibus delegate object (omnibus-delegate.ts:33-243): its operations
    move tokens of the pooled wallets; verification only reads, and waits for
    finality in a loop. */
module OmnibusDelegates {
  import opened Wrappers
  import opened Chain
  import opened Amounts
  import opened TokenStandards
  import opened Custody
  import opened Omnibus

  /** What getBlock('finalized') comes back with. */
  datatype BlockAnswer = Thrown | NoBlock | Block(number: nat)

  class OmnibusDelegate {
    const registry: TokenStandardRegistry
    const lookups: Env
    const omnibus: Address
    const requireFinalizedBlock: bool
    const timeoutMs: nat
    const intervalMs: nat
    var ledgers: Ledgers

    constructor (registry: TokenStandardRegistry, lookups: Env, omnibus: Address, ledgers: Ledgers,
                 requireFinalizedBlock: bool, timeoutMs: nat, intervalMs: nat)
      ensures this.registry == registry && this.lookups == lookups && this.omnibus == omnibus && this.ledgers == ledgers
      ensures this.requireFinalizedBlock == requireFinalizedBlock && this.timeoutMs == timeoutMs && this.intervalMs == intervalMs
    {
      this.registry, this.lookups, this.omnibus, this.ledgers := registry, lookups, omnibus, ledgers;
      this.requireFinalizedBlock, this.timeoutMs, this.intervalMs := requireFinalizedBlock, timeoutMs, intervalMs;
    }

    /** An operation on the ledger of an asset's contract, as far as the standard
        accepts it, and what becomes of the call; before the call nothing changes. */
    ghost predicate Does(r: Result<()>, before: Ledgers, assetId: string, fate: Fate, operation: (Ledger, HoldModel, Reading) -> Result<Ledger>)
      reads this, registry
    {
      match TokenOf(lookups.(standards := registry.standards), assetId)
      case Err(_) => r.Err? && ledgers == before
      case Ok(token) =>
        Attempted(r, ledgers)
        == AwaitOn(before, token.rec.contract,
                   operation(LedgerOf(before, token.rec.contract), token.model, (q: string) => lookups.parseUnits(q, token.rec.decimals)), fate)
    }

    /** The standard's call on the asset's contract, as far as the caller sees it. */
    method AwaitCall(contract: Address, accepted: Result<Ledger>, fate: Fate) returns (r: Result<()>)
      modifies this`ledgers
      ensures Attempted(r, ledgers) == AwaitOn(old(ledgers), contract, accepted, fate)
    {
      var l :- accepted;
      if fate.Throws? {
        if fate.mined { ledgers := ledgers[contract := l]; }
        return Err(THROWN);
      }
      ledgers := ledgers[contract := l];
      return Ok(());
    }

    method OutboundTransfer(destination: Destination, assetId: string, quantity: string, fate: Fate) returns (r: Result<()>)
      modifies this`ledgers
      ensures Does(r, old(ledgers), assetId, fate, (l: Ledger, m: HoldModel, read: Reading) => Omnibus.OutboundTransfer(lookups, omnibus, l, m, read, destination, quantity))
      ensures r.Ok? ==> exists to :: PaidAt(lookups, destination, to)
    {
      var rec :- RecordOf(lookups, assetId);
      var address :- DestinationAddress(lookups, destination);
      var amount :- lookups.parseUnits(quantity, rec.decimals);
      var model :- registry.HoldModelOf(rec.standard);
      r := AwaitCall(rec.contract, StdTransfer(LedgerOf(ledgers, rec.contract), omnibus, address, amount), fate);
    }

    method Hold(assetId: string, quantity: string, fate: Fate) returns (r: Result<()>)
      modifies this`ledgers
      ensures Does(r, old(ledgers), assetId, fate, (l: Ledger, m: HoldModel, read: Reading) => HoldPooled(lookups, omnibus, l, m, read, quantity))
    {
      var rec :- RecordOf(lookups, assetId);
      var amount :- lookups.parseUnits(quantity, rec.decimals);
      var model :- registry.HoldModelOf(rec.standard);
      r := AwaitCall(rec.contract, StdHold(model, LedgerOf(ledgers, rec.contract), omnibus, lookups.escrow, amount, None), fate);
    }

    method Release(destination: Destination, assetId: string, quantity: string, fate: Fate) returns (r: Result<()>)
      modifies this`ledgers
      ensures Does(r, old(ledgers), assetId, fate, (l: Ledger, m: HoldModel, read: Reading) => ReleasePooled(lookups, omnibus, l, m, read, destination, quantity))
    {
      var rec :- RecordOf(lookups, assetId);
      var amount :- lookups.parseUnits(quantity, rec.decimals);
      // a local investor's tokens stay pooled; a counterparty's leave us
      var local := destination.finId in lookups.accounts && lookups.accounts[destination.finId].text != "";
      var external :- LedgerAccountAddress(destination.account, lookups.chainId);
      if !local && (external.None? || !Truthy(external.value)) { return Err("Cannot resolve release destination"); }
      var target := if local then omnibus else external.value;
      var model :- registry.HoldModelOf(rec.standard);
      r := AwaitCall(rec.contract, StdRelease(model, LedgerOf(ledgers, rec.contract), lookups.escrow, target, amount, None), fate);
    }

    method Rollback(assetId: string, quantity: string, fate: Fate) returns (r: Result<()>)
      modifies this`ledgers
      ensures Does(r, old(ledgers), assetId, fate, (l: Ledger, m: HoldModel, read: Reading) => RollbackPooled(lookups, omnibus, l, m, read, quantity))
    {
      var rec :- RecordOf(lookups, assetId);
      var amount :- lookups.parseUnits(quantity, rec.decimals);
      var model :- registry.HoldModelOf(rec.standard);
      r := AwaitCall(rec.contract, StdRelease(model, LedgerOf(ledgers, rec.contract), lookups.escrow, omnibus, amount, None), fate);
    }

    /** A node that throws has failed us at once; a block at or past ours is
        final; without one the answer at or past the deadline is that it is not. */
    ghost predicate Says(answer: BlockAnswer, now: nat, blockNumber: nat, deadline: nat, f: Finality) {
      match f
      case NotRequired => false
      case Finalized => answer.Block? && answer.number >= blockNumber
      case NotFinal(error) =>
        || (answer.Thrown? && error == "failed to fetch finalized block")
        || (!answer.Thrown? && now >= deadline && (answer.Block? ==> answer.number < blockNumber) && error == "did not reach finalized state")
    }

    /** The last of so many answers says so and none before it decides anything:
        none throws, none is of a final block, and each comes before the deadline. */
    ghost predicate FirstDecisive(blockNumber: nat, start: nat, answers: nat -> BlockAnswer, clock: nat -> nat, f: Finality, polls: nat) {
      && polls > 0 && Says(answers(polls - 1), clock(polls - 1), blockNumber, start + timeoutMs, f)
      && (forall j :: 0 <= j < polls - 1 ==>
            !answers(j).Thrown? && (answers(j).Block? ==> answers(j).number < blockNumber) && clock(j) < start + timeoutMs)
      && (polls >= 2 ==> (polls - 2) * intervalMs < timeoutMs)
    }

    /** Asks for the finalized block until it is there, the deadline passes, or
        the node throws. Each sleep takes at least the interval, so the number of
        times it asks is bounded. */
    method WaitForFinalizedBlock(blockNumber: nat, start: nat, answers: nat -> BlockAnswer, clock: nat -> nat) returns (f: Finality, polls: nat)
      requires intervalMs > 0 && start <= clock(0)
      requires forall k: nat :: clock(k) + intervalMs <= clock(k + 1)
      ensures FirstDecisive(blockNumber, start, answers, clock, f, polls)
      ensures f == Finalized <==> exists j :: 0 <= j < polls && answers(j).Block? && answers(j).number >= blockNumber
    {
      var deadline := start + timeoutMs;
      polls := 0;
      while true
        invariant forall j :: 0 <= j < polls ==>
                    !answers(j).Thrown? && (answers(j).Block? ==> answers(j).number < blockNumber) && clock(j) < deadline
        invariant start + polls * intervalMs <= clock(polls)
        invariant polls > 0 ==> (polls - 1) * intervalMs < timeoutMs
        decreases deadline - clock(polls)
      {
        var answer, now := answers(polls), clock(polls);
        if answer.Thrown? { return NotFinal("failed to fetch finalized block"), polls + 1; }
        if answer.Block? && answer.number >= blockNumber { return Finalized, polls + 1; }
        if now >= deadline { return NotFinal("did not reach finalized state"), polls + 1; }
        assert clock(polls) + intervalMs <= clock(polls + 1);
        assert (polls + 1) * intervalMs == polls * intervalMs + intervalMs;
        polls := polls + 1;
      }
    }

    /** The receipt, once waited for, against the asset and the amount expected. */
    method VerifyReceiptOnChain(receipt: Option<TxReceipt>, assetId: string, expected: string,
                                start: nat, answers: nat -> BlockAnswer, clock: nat -> nat) returns (r: Result<()>, finality: Finality)
      requires intervalMs > 0 && start <= clock(0)
      requires forall k: nat :: clock(k) + intervalMs <= clock(k + 1)
      ensures r == Verify(receipt, finality, RecordOf(lookups, assetId), omnibus, expected)
      ensures finality == NotRequired <==> receipt.None? || receipt.value.status != 1 || !requireFinalizedBlock
      ensures finality != NotRequired ==> exists polls: nat :: FirstDecisive(receipt.value.blockNumber, start, answers, clock, finality, polls)
    {
      finality := NotRequired;
      if receipt.None? { return Err("not confirmed"), finality; }
      if receipt.value.status != 1 { return Err("failed on-chain"), finality; }
      if requireFinalizedBlock {
        var f, polls := WaitForFinalizedBlock(receipt.value.blockNumber, start, answers, clock);
        finality := f;
        if f.NotFinal? { return Err(f.error), finality; }
      }
      var found := RecordOf(lookups, assetId);
      if found.Err? { return Err(found.error), finality; }
      var rec := found.value;
      if receipt.value.to.None? || Lower(receipt.value.to.value) != Lower(rec.contract) {
        return Err("target contract does not match"), finality;
      }
      var logs := receipt.value.logs;
      var i := 0;
      while i < |logs| && !IsTransferTo(logs[i], omnibus)
        invariant 0 <= i <= |logs|
        invariant FirstTransferTo(logs, omnibus) == FirstTransferTo(logs[i..], omnibus)
      {
        assert logs[i..][1..] == logs[i + 1..];
        i := i + 1;
      }
      if i == |logs| { return Err("no Transfer event to the omnibus wallet"), finality; }
      var units := ParseUnits(expected, rec.decimals);
      if units.Err? { return Err(units.error), finality; }
      if logs[i].data != units.value { return Err("amount mismatch"), finality; }
      return Ok(()), finality;
    }
  }
}
