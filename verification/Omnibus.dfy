/** The omnibus delegate (src/services/omnibus/omnibus-delegate.ts): what each
    operation does to the pooled wallets, and when an inbound transfer is
    believed. */
module Omnibus {
  import opened Wrappers
  import opened Chain
  import opened Amounts
  import opened TokenStandards
  import opened Custody

  /** Each operation as far as the standard accepts it. The gas top-up before the
      standard's call may throw too; like any throw without a transaction it is
      the fate Throws(false). */

  /** standard.transfer from the omnibus wallet. */
  function OutboundTransfer(env: Env, omnibus: Address, l: Ledger, model: HoldModel, read: Reading,
                            destination: Destination, quantity: string): Result<Ledger> {
    var to :- DestinationAddress(env, destination);
    var amount :- read(quantity);
    StdTransfer(l, omnibus, to, amount)
  }

  /** No operation context is passed on. */
  function HoldPooled(env: Env, omnibus: Address, l: Ledger, model: HoldModel, read: Reading, quantity: string): Result<Ledger> {
    var amount :- read(quantity);
    StdHold(model, l, omnibus, env.escrow, amount, None)
  }

  /** An investor of ours, whose tokens stay pooled. */
  predicate Local(env: Env, finId: string) { finId in env.accounts && Truthy(env.accounts[finId]) }

  /** Where a release is paid: back into the pool, or to the counterparty. */
  function ReleaseTarget(env: Env, omnibus: Address, destination: Destination): Result<Address> {
    var external :- LedgerAccountAddress(destination.account, env.chainId);
    if Local(env, destination.finId) then Ok(omnibus)
    else if external.None? || !Truthy(external.value) then Err("Cannot resolve release destination")
    else Ok(external.value)
  }

  function ReleasePooled(env: Env, omnibus: Address, l: Ledger, model: HoldModel, read: Reading,
                         destination: Destination, quantity: string): Result<Ledger> {
    var amount :- read(quantity);
    var target :- ReleaseTarget(env, omnibus, destination);
    StdRelease(model, l, env.escrow, target, amount, None)
  }

  function RollbackPooled(env: Env, omnibus: Address, l: Ledger, model: HoldModel, read: Reading, quantity: string): Result<Ledger> {
    var amount :- read(quantity);
    StdRelease(model, l, env.escrow, omnibus, amount, None)
  }

  /** Without a context a reservation cannot be made or found: pooled holds and
      their settlements work under escrow-transfer only. */
  lemma NoReservationsInThePool(env: Env, omnibus: Address, l: Ledger, read: Reading, destination: Destination, quantity: string)
    ensures HoldPooled(env, omnibus, l, HolderReservation, read, quantity).Err?
    ensures ReleasePooled(env, omnibus, l, HolderReservation, read, destination, quantity).Err?
    ensures RollbackPooled(env, omnibus, l, HolderReservation, read, quantity).Err?
  {
  }

  /** The account of a local investor is not needed, and yet a caip10 account of
      another chain stops the release to them; without it the release is paid. */
  lemma OtherChainStopsLocalRelease(env: Env, omnibus: Address, l: Ledger, read: Reading, finId: string, network: string, address: Address, quantity: string)
    requires Local(env, finId)
    ensures !NamesChain(network, env.chainId) ==>
      ReleasePooled(env, omnibus, l, EscrowTransfer, read, Destination(finId, Some(Caip10Account(network, address))), quantity).Err?
    ensures NamesChain(network, env.chainId) ==>
      ReleasePooled(env, omnibus, l, EscrowTransfer, read, Destination(finId, Some(Caip10Account(network, address))), quantity)
      == ReleasePooled(env, omnibus, l, EscrowTransfer, read, Destination(finId, None), quantity)
  {
  }

  /* ---- inbound verification ---- */

  datatype Log = Log(emitter: Address, topics: seq<string>, data: nat)
  datatype TxReceipt = TxReceipt(status: nat, to: Option<Address>, blockNumber: nat, logs: seq<Log>)

  const TRANSFER_TOPIC := "0xddf252ad1be2c89b69c2b068fc378daa952ba7f163c4a11628f55a4df523b3ef"

  predicate EndsWith(s: string, suffix: string) { |suffix| <= |s| && s[|s| - |suffix|..] == suffix }

  function Unprefixed(a: Address): string { if |a.text| < 2 then "" else a.text[2..] }

  predicate IsTransfer(log: Log) { |log.topics| >= 3 && log.topics[0] == TRANSFER_TOPIC }

  predicate IsTransferTo(log: Log, to: Address) { IsTransfer(log) && EndsWith(ToLower(log.topics[2]), Unprefixed(Lower(to))) }

  predicate IsTransferFrom(log: Log, from: Address) { IsTransfer(log) && EndsWith(ToLower(log.topics[1]), Unprefixed(Lower(from))) }

  function FirstTransferTo(logs: seq<Log>, to: Address): Option<Log> {
    if logs == [] then None
    else if IsTransferTo(logs[0], to) then Some(logs[0])
    else FirstTransferTo(logs[1..], to)
  }

  datatype Finality = NotRequired | Finalized | NotFinal(error: string)

  predicate Reached(f: Finality) { !f.NotFinal? }

  /** verifyReceiptOnChain, once the receipt has been waited for. */
  function Verify(receipt: Option<TxReceipt>, finality: Finality, rec: Result<AssetRecord>, omnibus: Address, expected: string): Result<()> {
    if receipt.None? then Err("not confirmed")
    else if receipt.value.status != 1 then Err("failed on-chain")
    else if finality.NotFinal? then Err(finality.error)
    else
      var record :- rec;
      if receipt.value.to.None? || Lower(receipt.value.to.value) != Lower(record.contract) then Err("target contract does not match")
      else if FirstTransferTo(receipt.value.logs, omnibus).None? then Err("no Transfer event to the omnibus wallet")
      else
        var units :- ParseUnits(expected, record.decimals);
        if FirstTransferTo(receipt.value.logs, omnibus).value.data != units then Err("amount mismatch") else Ok(())
  }

  predicate FirstAt(logs: seq<Log>, to: Address, i: int) {
    0 <= i < |logs| && IsTransferTo(logs[i], to) && forall j :: 0 <= j < i ==> !IsTransferTo(logs[j], to)
  }

  lemma {:induction false} FirstIsFirst(logs: seq<Log>, to: Address)
    ensures FirstTransferTo(logs, to).None? ==> forall i :: 0 <= i < |logs| ==> !IsTransferTo(logs[i], to)
    ensures FirstTransferTo(logs, to).Some? ==> exists i :: FirstAt(logs, to, i) && logs[i] == FirstTransferTo(logs, to).value
  {
    if logs != [] {
      var rest := logs[1..];
      FirstIsFirst(rest, to);
      if IsTransferTo(logs[0], to) {
        assert FirstAt(logs, to, 0);
      } else if FirstTransferTo(rest, to).Some? {
        var i :| FirstAt(rest, to, i) && rest[i] == FirstTransferTo(rest, to).value;
        assert forall j :: 0 < j < i + 1 ==> logs[j] == rest[j - 1];
        assert FirstAt(logs, to, i + 1);
      } else {
        assert forall j :: 0 < j < |logs| ==> logs[j] == rest[j - 1];
      }
    }
  }

  /** An amount a watcher reported is accepted for a transaction exactly when the
      transaction succeeded, is final if that is asked for, called the asset's
      contract, and its first transfer to the omnibus wallet is of that amount. */
  lemma ReportedAmountAcceptedIff(receipt: Option<TxReceipt>, finality: Finality, rec: AssetRecord, omnibus: Address, amount: nat)
    ensures Verify(receipt, finality, Ok(rec), omnibus, FormatUnits(amount, rec.decimals)).Ok? <==>
            && receipt.Some? && receipt.value.status == 1 && Reached(finality)
            && receipt.value.to.Some? && Lower(receipt.value.to.value) == Lower(rec.contract)
            && exists i :: FirstAt(receipt.value.logs, omnibus, i) && receipt.value.logs[i].data == amount
  {
    AmountRoundTrip(amount, rec.decimals);
    if receipt.Some? {
      FirstIsFirst(receipt.value.logs, omnibus);
    }
  }

  lemma AcceptedByFirst(receipt: TxReceipt, finality: Finality, rec: AssetRecord, omnibus: Address, amount: nat, i: nat)
    requires receipt.status == 1 && Reached(finality) && receipt.to == Some(rec.contract)
    requires FirstAt(receipt.logs, omnibus, i) && receipt.logs[i].data == amount
    ensures Verify(Some(receipt), finality, Ok(rec), omnibus, FormatUnits(amount, rec.decimals)).Ok?
  {
    ReportedAmountAcceptedIff(Some(receipt), finality, rec, omnibus, amount);
  }

  /** The indexed `to` of a Transfer event: an address padded to 32 bytes. */
  function Topic(a: Address): string { "0x000000000000000000000000" + Unprefixed(a) }

  /** An address is found in its own topic. */
  lemma OwnTopic(a: Address)
    ensures EndsWith(ToLower(Topic(a)), Unprefixed(Lower(a)))
  {
    var t, suffix := ToLower(Topic(a)), Unprefixed(Lower(a));
    forall k | 0 <= k < |suffix| ensures t[|t| - |suffix|..][k] == suffix[k] {
      assert Topic(a)[26 + k] == Unprefixed(a)[k];
    }
  }

  predicate IsHexAddress(a: Address) { |a.text| == 42 && a.text[0] == '0' && a.text[1] == 'x' }

  /** On padded addresses the suffix test is equality up to case. */
  lemma TopicNamesAddress(a: Address, to: Address)
    requires IsHexAddress(a) && IsHexAddress(to)
    ensures EndsWith(ToLower(Topic(a)), Unprefixed(Lower(to))) <==> Lower(a) == Lower(to)
  {
    var t, low, lowTo := ToLower(Topic(a)), Lower(a).text, Lower(to).text;
    assert |t| == 66 && |low| == |lowTo| == 42;
    assert t[26..] == low[2..] by {
      forall k | 0 <= k < 40 ensures t[26..][k] == low[2..][k] {
        assert Topic(a)[26 + k] == a.text[2 + k];
      }
    }
    assert low[..2] == lowTo[..2];
    assert low == low[..2] + low[2..] && lowTo == lowTo[..2] + lowTo[2..];
  }
}
