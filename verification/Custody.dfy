/** The custody token service (src/services/custody/token-service.ts): who an
    operation names, and what it then does to the asset's ledger. */
module Custody {
  import opened Wrappers
  import opened Chain
  import opened Amounts
  import Intents
  import opened OperationContexts
  import opened TokenStandards

  datatype AssetRecord = AssetRecord(contract: Address, decimals: nat, standard: string)

  datatype LedgerAccount = WalletAccount(address: Address) | Caip10Account(network: string, address: Address) | OtherAccount
  datatype Source = Source(finId: string)
  datatype Destination = Destination(finId: string, account: Option<LedgerAccount>)

  datatype ResolvedAccount = ResolvedAccount(address: Address, custodyId: Option<string>)

  /** What the service looks things up in: the asset store, the registered
      standards, the account mapping (`full` if it resolves full accounts), and
      the custody wallets -- by custody account id, if the provider makes such
      wallets, and by address -- each given by the address it signs for. `parseUnits` is
      ethers' (Amounts.ParseUnits is what it does). */
  datatype Env = Env(assets: map<string, AssetRecord>, standards: map<string, HoldModel>,
                     accounts: map<string, Address>, full: Option<map<string, ResolvedAccount>>,
                     byCustodyId: Option<map<string, Address>>, byAddress: map<Address, Address>,
                     escrow: Address, issuer: bool, chainId: nat,
                     parseUnits: (string, nat) -> Result<int>)

  predicate Truthy(a: Address) { a.text != "" }

  function Lookup<K, V>(m: map<K, V>, k: K): Option<V> { if k in m then Some(m[k]) else None }

  function RecordOf(env: Env, assetId: string): Result<AssetRecord> {
    if assetId in env.assets then Ok(env.assets[assetId]) else Err("Asset is not registered in DB")
  }

  /** A source's address, and the address its wallet signs for. */
  datatype SourceWallet = SourceWallet(address: Address, signer: Address)

  const UNRESOLVED_SOURCE := "Source address cannot be resolved to a custody wallet"

  /** The wallet that acts for a finId: the one kept for its custody account, if
      the full account names one and the provider can make such wallets, and else
      the one that signs for its address -- that of the full account, or the mapped
      one if there is no full account. */
  predicate SignedBy(env: Env, finId: string, w: SourceWallet) {
    var known := env.full.Some? && finId in env.full.value;
    var custodyId := if known then env.full.value[finId].custodyId.GetOr("") else "";
    if custodyId != "" && env.byCustodyId.Some? then
      && custodyId in env.byCustodyId.value
      && w == SourceWallet(env.full.value[finId].address, env.byCustodyId.value[custodyId])
    else
      && w.address.text != "" && w.address in env.byAddress && w.signer == env.byAddress[w.address]
      && (if known then w.address == env.full.value[finId].address
          else finId in env.accounts && w.address == env.accounts[finId])
  }

  function ResolveSourceWallet(env: Env, finId: string): (r: Result<SourceWallet>)
    ensures r.Ok? ==> SignedBy(env, finId, r.value)
    ensures r.Err? ==> forall w :: !SignedBy(env, finId, w)
  {
    var full := if env.full.Some? then Lookup(env.full.value, finId) else None;
    if full.Some? && full.value.custodyId.Some? && full.value.custodyId.value != "" && env.byCustodyId.Some? then
      if full.value.custodyId.value in env.byCustodyId.value then
        Ok(SourceWallet(full.value.address, env.byCustodyId.value[full.value.custodyId.value]))
      else Err("no wallet for custody account")
    else
      var address := if full.Some? then Some(full.value.address) else Lookup(env.accounts, finId);
      if address.None? || !Truthy(address.value) || address.value !in env.byAddress then Err(UNRESOLVED_SOURCE)
      else Ok(SourceWallet(address.value, env.byAddress[address.value]))
  }

  const EIP155 := "eip155:"

  /** `eip155:` and the digits of a chain id. */
  predicate NamesChain(network: string, chainId: nat) {
    && |network| > |EIP155| && network[..|EIP155|] == EIP155
    && AllDigits(network[|EIP155|..]) && Value(network[|EIP155|..]) == chainId
  }

  /** A network that is written as ours names our chain, and no other does; one
      without a chain id names none. */
  lemma ChainNamed(n: nat, chainId: nat)
    ensures NamesChain("eip155:" + Digits(n), chainId) <==> n == chainId
    ensures !NamesChain("eip155:", chainId)
  {
    var network := "eip155:" + Digits(n);
    assert network[..|EIP155|] == EIP155 && network[|EIP155|..] == Digits(n);
  }

  /** An instruction's account carries an address: a wallet, or an account of this
      chain. */
  predicate Carries(account: Option<LedgerAccount>, chainId: nat, address: Address) {
    && account.Some? && !account.value.OtherAccount? && account.value.address == address
    && (account.value.Caip10Account? ==> NamesChain(account.value.network, chainId))
  }

  predicate OfAnotherChain(account: Option<LedgerAccount>, chainId: nat) {
    account.Some? && account.value.Caip10Account? && !NamesChain(account.value.network, chainId)
  }

  function LedgerAccountAddress(account: Option<LedgerAccount>, chainId: nat): (r: Result<Option<Address>>)
    ensures r.Err? <==> OfAnotherChain(account, chainId)
    ensures r.Ok? && r.value.Some? ==> Carries(account, chainId, r.value.value)
    ensures r.Ok? && r.value.None? ==> forall address :: !Carries(account, chainId, address)
  {
    if account.None? then Ok(None) else
    match account.value
    case WalletAccount(address) => Ok(Some(address))
    case Caip10Account(network, address) =>
      if NamesChain(network, chainId) then Ok(Some(address)) else Err("caip10 account network does not match this adapter's chain")
    case OtherAccount => Ok(None)
  }

  /** Where a destination is paid: a mapped finId at its address, whatever account
      the instruction carries; any other at the address carried. Never at an
      empty one. */
  predicate PaidAt(env: Env, d: Destination, to: Address) {
    && to.text != ""
    && if d.finId in env.accounts then to == env.accounts[d.finId] else Carries(d.account, env.chainId, to)
  }

  /** The mapped address, or else the one the instruction carries. */
  function DestinationAddress(env: Env, d: Destination): (r: Result<Address>)
    ensures r.Ok? ==> PaidAt(env, d, r.value)
    ensures r.Err? ==> forall to :: !PaidAt(env, d, to)
  {
    var address :- if d.finId in env.accounts then Ok(Some(env.accounts[d.finId])) else LedgerAccountAddress(d.account, env.chainId);
    if address.None? || !Truthy(address.value) then Err("Cannot resolve address for finId") else Ok(address.value)
  }

  function ResolveAddress(env: Env, finId: string): Result<Address> {
    if finId in env.accounts then Ok(env.accounts[finId]) else Err("Cannot resolve address for finId")
  }

  /* ---- operations ---- */

  datatype Op =
    | Issue(destination: Destination, quantity: string)
    | Transfer(source: Source, to: Destination, quantity: string)
    | Redeem(source: Source, quantity: string, held: Option<string>)
    | Hold(source: Source, forDestination: Option<Destination>, quantity: string, operationId: string)
    | Release(source: Source, to: Destination, quantity: string, operationId: string)
    | Rollback(source: Source, quantity: string, operationId: string)

  /** An operation as the router sends it, and what becomes of the standard's call. */
  datatype Call = Call(op: Op, asset: Intents.Asset, signature: Option<Intents.Template>, exCtx: Option<ExecutionContext>, fate: Fate)

  /** What an operation comes down to once its names are resolved. */
  datatype Act =
    | Mint(to: Address, amount: int)
    | Send(from: Address, to: Address, amount: int)
    | Burn(from: Address, amount: int)
    | BurnHeld(amount: int, ctx: Option<OperationContext>)
    | Lock(from: Address, amount: int, ctx: Option<OperationContext>)
    | Pay(to: Address, amount: int, ctx: Option<OperationContext>)

  /** `if (operationId)`. */
  predicate Given(operationId: Option<string>) { operationId.Some? && operationId.value != "" }

  /** How a quantity is read into base units, or the error. */
  type Reading = string -> Result<int>

  /** parseUnits with the asset's decimals. */
  function Units(env: Env, rec: AssetRecord): Reading { quantity => env.parseUnits(quantity, rec.decimals) }

  function FinIdOf(d: Option<Destination>): Option<string> { if d.Some? then Some(d.value.finId) else None }

  function Decode(env: Env, c: Call, read: Reading): Result<Act> {
    match c.op
    case Issue(destination, quantity) =>
      if !env.issuer then Err("ASSET_ISSUER_PRIVATE_KEY is not set") else
      var to :- DestinationAddress(env, destination);
      var amount :- read(quantity);
      Ok(Mint(to, amount))
    case Transfer(source, destination, quantity) =>
      var from :- ResolveSourceWallet(env, source.finId);
      var amount :- read(quantity);
      var to :- DestinationAddress(env, destination);
      Ok(Send(from.signer, to, amount))
    case Redeem(source, quantity, held) =>
      var amount :- read(quantity);
      if Given(held) then Ok(BurnHeld(amount, BuildOperationContext(c.asset, c.signature, c.exCtx, held, Intents.RedeemIt)))
      else
        var from :- ResolveSourceWallet(env, source.finId);
        Ok(Burn(from.address, amount))
    case Hold(source, destination, quantity, operationId) =>
      var from :- ResolveSourceWallet(env, source.finId);
      var amount :- read(quantity);
      Ok(Lock(from.signer, amount, BuildOperationContext(c.asset, c.signature, c.exCtx, Some(operationId),
                                                         DeriveReleaseType(c.signature, FinIdOf(destination)))))
    case Release(_, destination, quantity, operationId) =>
      var to :- DestinationAddress(env, destination);
      var amount :- read(quantity);
      Ok(Pay(to, amount, BuildOperationContext(c.asset, None, c.exCtx, Some(operationId), Intents.ReleaseIt)))
    case Rollback(source, quantity, operationId) =>
      var to :- ResolveAddress(env, source.finId);
      var amount :- read(quantity);
      Ok(Pay(to, amount, BuildOperationContext(c.asset, None, c.exCtx, Some(operationId), Intents.ReleaseIt)))
  }

  function Apply(model: HoldModel, escrow: Address, l: Ledger, act: Act): Result<Ledger> {
    match act
    case Mint(to, amount) => StdMint(l, to, amount)
    case Send(from, to, amount) => StdTransfer(l, from, to, amount)
    case Burn(from, amount) => StdBurn(l, from, amount)
    case BurnHeld(amount, ctx) =>
      if model == HolderReservation then StdRelease(model, l, escrow, ZERO_ADDRESS, amount, ctx) else StdBurn(l, escrow, amount)
    case Lock(from, amount, ctx) => StdHold(model, l, from, escrow, amount, ctx)
    case Pay(to, amount, ctx) => StdRelease(model, l, escrow, to, amount, ctx)
  }

  /* ---- receipts ---- */

  datatype OperationType = IssueReceipt | TransferReceipt | RedeemReceipt | HoldReceipt | ReleaseReceipt

  datatype Receipt = Receipt(kind: OperationType, source: Option<string>, destination: Option<string>, quantity: string, operationId: Option<string>)
                   | Failed(error: string)

  /** The receipt of an operation that succeeded: what it shows for either party. */
  function ReceiptOf(op: Op): Receipt {
    match op
    case Issue(d, quantity) => Receipt(IssueReceipt, Some(d.finId), Some(d.finId), quantity, None)
    case Transfer(s, d, quantity) => Receipt(TransferReceipt, Some(s.finId), Some(d.finId), quantity, None)
    case Redeem(s, quantity, held) => Receipt(RedeemReceipt, Some(s.finId), None, quantity, held)
    case Hold(s, d, quantity, operationId) => Receipt(HoldReceipt, Some(s.finId), FinIdOf(d), quantity, Some(operationId))
    case Release(s, d, quantity, operationId) => Receipt(ReleaseReceipt, Some(s.finId), Some(d.finId), quantity, Some(operationId))
    case Rollback(s, quantity, operationId) => Receipt(ReleaseReceipt, Some(s.finId), None, quantity, Some(operationId))
  }

  datatype Outcome = Outcome(receipt: Receipt, ledger: Ledger)

  /** One call, whatever comes of it, on the ledger of the asset's contract. */
  function Perform(env: Env, l: Ledger, c: Call, read: Reading, model: HoldModel): Outcome {
    match Decode(env, c, read)
    case Err(error) => Outcome(Failed(error), l)
    case Ok(act) =>
      var effect := Await(l, Apply(model, env.escrow, l, act), c.fate);
      Outcome(if effect.result.Ok? then ReceiptOf(c.op) else Failed(effect.result.error), effect.ledger)
  }

  /* ---- the service over all contracts ---- */

  /** The asset's record and the hold model of its standard. */
  datatype Token = Token(rec: AssetRecord, model: HoldModel)

  function TokenOf(env: Env, assetId: string): Result<Token> {
    var rec :- RecordOf(env, assetId);
    var model :- TokenStandards.Lookup(env.standards, rec.standard);
    Ok(Token(rec, model))
  }

  /** A call on a token: what its names and its quantity are resolved to, and the
      standard's call. */
  function AttemptOn(env: Env, ledgers: Ledgers, c: Call, token: Token): Attempted {
    match Decode(env, c, Units(env, token.rec))
    case Err(error) => Attempted(Err(error), ledgers)
    case Ok(act) =>
      AwaitOn(ledgers, token.rec.contract, Apply(token.model, env.escrow, LedgerOf(ledgers, token.rec.contract), act), c.fate)
  }

  function Attempt(env: Env, ledgers: Ledgers, c: Call): Attempted {
    match TokenOf(env, c.asset.assetId)
    case Err(error) => Attempted(Err(error), ledgers)
    case Ok(token) => AttemptOn(env, ledgers, c, token)
  }

  datatype Served = Served(receipt: Receipt, ledgers: Ledgers)

  function Serve(env: Env, ledgers: Ledgers, c: Call): Served {
    var attempted := Attempt(env, ledgers, c);
    Served(if attempted.result.Ok? then ReceiptOf(c.op) else Failed(attempted.result.error), attempted.ledgers)
  }

  /** The asset is registered, under a standard that is. */
  predicate Registered(env: Env, assetId: string) {
    assetId in env.assets && ToUpper(env.assets[assetId].standard) in env.standards
  }

  lemma DecodesAlike(env: Env, c: Call, read: Reading, read': Reading)
    requires read(c.op.quantity) == read'(c.op.quantity)
    ensures Decode(env, c, read) == Decode(env, c, read')
  {
  }

  /** A call on a registered asset is performed on the ledger of the asset's own
      contract, by the standard registered for it, with the quantity read in the
      asset's decimals; no other ledger changes. Any other call changes nothing. */
  lemma ServedOnItsContract(env: Env, ledgers: Ledgers, c: Call, read: Reading, other: Address)
    requires Registered(env, c.asset.assetId) ==> read(c.op.quantity) == env.parseUnits(c.op.quantity, env.assets[c.asset.assetId].decimals)
    ensures var served := Serve(env, ledgers, c);
            if Registered(env, c.asset.assetId) then
              var rec := env.assets[c.asset.assetId];
              var out := Perform(env, LedgerOf(ledgers, rec.contract), c, read, env.standards[ToUpper(rec.standard)]);
              && served.receipt == out.receipt && LedgerOf(served.ledgers, rec.contract) == out.ledger
              && (other != rec.contract ==> LedgerOf(served.ledgers, other) == LedgerOf(ledgers, other))
            else served.receipt.Failed? && served.ledgers == ledgers
  {
    if Registered(env, c.asset.assetId) {
      var rec := env.assets[c.asset.assetId];
      var model := env.standards[ToUpper(rec.standard)];
      DecodesAlike(env, c, read, Units(env, rec));
      if Decode(env, c, read).Ok? {
        var act := Decode(env, c, read).value;
        AwaitedOnItsContract(ledgers, rec.contract, Apply(model, env.escrow, LedgerOf(ledgers, rec.contract), act), c.fate, other);
      }
    }
  }

  /** The same operation with another account carried to its destination. */
  function Carrying(op: Op, account: Option<LedgerAccount>): Op {
    match op
    case Issue(d, quantity) => Issue(d.(account := account), quantity)
    case Transfer(s, d, quantity) => Transfer(s, d.(account := account), quantity)
    case Release(s, d, quantity, id) => Release(s, d.(account := account), quantity, id)
    case _ => op
  }

  /** To a mapped finId it makes no difference what account an instruction carries. */
  lemma MappedWhateverIsCarried(env: Env, ledgers: Ledgers, c: Call, account: Option<LedgerAccount>)
    requires c.op.Issue? ==> c.op.destination.finId in env.accounts
    requires c.op.Transfer? || c.op.Release? ==> c.op.to.finId in env.accounts
    ensures Serve(env, ledgers, c.(op := Carrying(c.op, account))) == Serve(env, ledgers, c)
  {
    assert forall read :: Decode(env, c.(op := Carrying(c.op, account)), read) == Decode(env, c, read);
  }
}
