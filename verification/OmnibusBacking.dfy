/** How far the pooled tokens back the internal ledger. The ledger's side of each
    operation is as docs/omnibus-mode.md describes it; the chain's side is what
    the delegate does, replies lost on the way included. */
module OmnibusBacking {
  import opened Wrappers
  import opened Chain
  import opened Amounts
  import opened TokenStandards
  import opened Custody
  import opened Omnibus
  import opened Totals

  datatype Investor = Investor(finId: string)
  datatype Reserve = Reserve(owner: Investor, amount: nat)

  /** The internal ledger. */
  datatype Books = Books(available: map<Investor, nat>, locked: map<OpId, Reserve>)

  /** A mined transaction, by its place in the chain. */
  type Tx = nat

  /** `receipts`: every mined transaction, the pool's own and others'. `credited`:
      those that have been claimed as a deposit. The gaps are what the two wallets
      hold beyond what they should, or lack when negative. */
  datatype World = World(tokens: Ledger, books: Books, receipts: seq<TxReceipt>, credited: set<Tx>,
                         gapOmnibus: int, gapEscrow: int)

  /** One asset of the pool: its record, and how its quantities are read. */
  datatype Pool = Pool(env: Env, omnibus: Address, rec: AssetRecord, read: Reading)

  /** `receipt`: the transaction's, if it is mined. `after`: the token contract's
      accounts after somebody else's transaction. */
  datatype Event =
    | Internal(payer: Investor, payee: Investor, n: nat)
    | Outbound(payer: Investor, to: Destination, quantity: string, fate: Fate, receipt: TxReceipt)
    | PoolHold(id: OpId, payer: Investor, quantity: string, fate: Fate, receipt: TxReceipt)
    | PoolRelease(id: OpId, to: Destination, quantity: string, fate: Fate, receipt: TxReceipt)
    | PoolRollback(id: OpId, quantity: string, fate: Fate, receipt: TxReceipt)
    | Deliver(after: Ledger, receipt: TxReceipt)
    | Inbound(tx: Tx, payee: Investor, expected: string, finality: Finality)

  function Available(b: Books, who: Investor): nat { if who in b.available then b.available[who] else 0 }

  function Gain(b: Books, who: Investor, n: nat): Books { b.(available := b.available[who := Available(b, who) + n]) }

  function Spend(b: Books, who: Investor, n: nat): Books
    requires n <= Available(b, who)
  {
    b.(available := b.available[who := Available(b, who) - n])
  }

  function Unlock(b: Books, id: OpId): Books { b.(locked := b.locked - {id}) }

  /** The internal ledger covers the quantity. */
  predicate Covers(p: Pool, b: Books, payer: Investor, quantity: string) {
    p.read(quantity).Ok? && 0 <= p.read(quantity).value <= Available(b, payer)
  }

  predicate HeldAs(p: Pool, b: Books, id: OpId, quantity: string) {
    id in b.locked && p.read(quantity) == Ok(b.locked[id].amount)
  }

  /* ---- the delegate's operations ---- */

  /** What the standard is asked to do: nothing unless the ledger lets the
      operation through. */
  function Asked(p: Pool, w: World, e: Event): Result<Ledger>
    requires e.Outbound? || e.PoolHold? || e.PoolRelease? || e.PoolRollback?
  {
    match e
    case Outbound(payer, to, quantity, _, _) =>
      if Covers(p, w.books, payer, quantity) then OutboundTransfer(p.env, p.omnibus, w.tokens, EscrowTransfer, p.read, to, quantity)
      else Err("not covered")
    case PoolHold(id, payer, quantity, _, _) =>
      if Covers(p, w.books, payer, quantity) && id !in w.books.locked then HoldPooled(p.env, p.omnibus, w.tokens, EscrowTransfer, p.read, quantity)
      else Err("not covered")
    case PoolRelease(id, to, quantity, _, _) =>
      if HeldAs(p, w.books, id, quantity) then ReleasePooled(p.env, p.omnibus, w.tokens, EscrowTransfer, p.read, to, quantity)
      else Err("not held")
    case PoolRollback(id, quantity, _, _) =>
      if HeldAs(p, w.books, id, quantity) then RollbackPooled(p.env, p.omnibus, w.tokens, EscrowTransfer, p.read, quantity)
      else Err("not held")
  }

  predicate Pooled(e: Event) { e.Outbound? || e.PoolHold? || e.PoolRelease? || e.PoolRollback? }

  /** The base units an operation is about. */
  function Size(p: Pool, w: World, e: Event): nat
    requires Pooled(e) && Asked(p, w, e).Ok?
  {
    p.read(e.quantity).value
  }

  /** Where an operation takes tokens from, and whom it pays. */
  function Payer(p: Pool, e: Event): Address { if e.Outbound? || e.PoolHold? then p.omnibus else p.env.escrow }

  function Payee(p: Pool, w: World, e: Event): Address
    requires Pooled(e) && Asked(p, w, e).Ok?
  {
    match e
    case Outbound(_, to, _, _, _) => DestinationAddress(p.env, to).value
    case PoolHold(_, _, _, _, _) => p.env.escrow
    case PoolRelease(_, to, _, _, _) => ReleaseTarget(p.env, p.omnibus, to).value
    case PoolRollback(_, _, _, _) => p.omnibus
  }

  predicate EmittedBy(log: Log, contract: Address) { Lower(log.emitter) == Lower(contract) }

  /** The Transfer event of a payment. */
  function TransferLog(contract: Address, from: Address, to: Address, n: nat): Log {
    Log(contract, [TRANSFER_TOPIC, Topic(from), Topic(to)], n)
  }

  /** What a transaction of ours shows: a call to the asset's contract, which logs
      the payment at `i` and no other transfer. Other contracts may log what they like. */
  predicate ShowsAt(p: Pool, receipt: TxReceipt, paid: Log, i: int) {
    && receipt.status == 1 && receipt.to == Some(p.rec.contract) && 0 <= i < |receipt.logs| && receipt.logs[i] == paid
    && forall j :: 0 <= j < |receipt.logs| && j != i ==> !(EmittedBy(receipt.logs[j], p.rec.contract) && IsTransfer(receipt.logs[j]))
  }

  function Paid(p: Pool, w: World, e: Event): Log
    requires Pooled(e) && Asked(p, w, e).Ok?
  {
    TransferLog(p.rec.contract, Payer(p, e), Payee(p, w, e), Size(p, w, e))
  }

  predicate Shows(p: Pool, receipt: TxReceipt, paid: Log) { exists i :: 0 <= i < |receipt.logs| && ShowsAt(p, receipt, paid, i) }

  /** The operation's transaction was mined; the caller may not know. */
  predicate Mined(p: Pool, w: World, e: Event) {
    Pooled(e) && Asked(p, w, e).Ok? && e.fate != Throws(false) && Shows(p, e.receipt, Paid(p, w, e))
  }

  /** The caller was told of success. */
  predicate Succeeded(p: Pool, w: World, e: Event) { Mined(p, w, e) && e.fate.Answers? }

  /** The ledger's side of an operation that succeeded: lock and debit, lock,
      unlock and pay over, unlock. One that failed is undone. */
  function Booked(p: Pool, w: World, e: Event): Books
    requires Succeeded(p, w, e)
  {
    var n := Size(p, w, e);
    match e
    case Outbound(payer, _, _, _, _) => Spend(w.books, payer, n)
    case PoolHold(id, payer, _, _, _) => Spend(w.books, payer, n).(locked := w.books.locked[id := Reserve(payer, n)])
    case PoolRelease(id, to, _, _, _) =>
      if Local(p.env, to.finId) then Gain(Unlock(w.books, id), Investor(to.finId), n) else Unlock(w.books, id)
    case PoolRollback(id, _, _, _) => Gain(Unlock(w.books, id), w.books.locked[id].owner, n)
  }

  /* ---- deposits from outside ---- */

  predicate FromPool(p: Pool, log: Log) { IsTransferFrom(log, p.omnibus) || IsTransferFrom(log, p.env.escrow) }

  /** A transfer the asset's contract logs, and not out of a wallet of the pool. */
  predicate FromOutside(p: Pool, log: Log) { EmittedBy(log, p.rec.contract) && !FromPool(p, log) }

  /** What a transaction brought to a wallet from outside. */
  function Arrived(p: Pool, logs: seq<Log>, to: Address): nat {
    if logs == [] then 0 else
    (if FromOutside(p, logs[0]) && IsTransferTo(logs[0], to) then logs[0].data else 0) + Arrived(p, logs[1..], to)
  }

  function ToOmnibus(p: Pool, receipt: TxReceipt): nat { Arrived(p, receipt.logs, p.omnibus) }
  function ToEscrow(p: Pool, receipt: TxReceipt): nat { Arrived(p, receipt.logs, p.env.escrow) }

  /** What a transaction brought to the omnibus wallet and has not been credited. */
  function Due(p: Pool, w: World, tx: Tx): nat
    requires tx < |w.receipts|
  {
    if tx in w.credited then 0 else ToOmnibus(p, w.receipts[tx])
  }

  /** Others move tokens, among themselves and to the pool, as the contract's logs
      say; out of the pool's wallets nobody else can move any. */
  predicate Delivers(p: Pool, w: World, e: Event) {
    && e.Deliver?
    && (forall i :: 0 <= i < |e.receipt.logs| && EmittedBy(e.receipt.logs[i], p.rec.contract) ==> !FromPool(p, e.receipt.logs[i]))
    && Free(e.after, p.omnibus) == Free(w.tokens, p.omnibus) + ToOmnibus(p, e.receipt)
    && Free(e.after, p.env.escrow) == Free(w.tokens, p.env.escrow) + ToEscrow(p, e.receipt)
  }

  /** onInboundTransfer: the delegate looks at the receipt and at what the claimant
      names, whoever sent the transaction and however often it is claimed. */
  predicate Verified(p: Pool, w: World, e: Event) {
    && e.Inbound? && e.tx < |w.receipts|
    && Verify(Some(w.receipts[e.tx]), e.finality, Ok(p.rec), p.omnibus, e.expected).Ok?
  }

  /** The log that is believed: the first that looks like a transfer to the
      omnibus wallet. What it says is credited. */
  function Believed(p: Pool, w: World, e: Event): Log
    requires Verified(p, w, e)
  {
    FirstTransferTo(w.receipts[e.tx].logs, p.omnibus).value
  }

  function Credited(p: Pool, w: World, e: Event): nat
    requires Verified(p, w, e)
  {
    Believed(p, w, e).data
  }

  /* ---- steps ---- */

  function Moves(p: Pool, w: World, e: Event): World {
    if Mined(p, w, e) then
      w.(tokens := Asked(p, w, e).value, receipts := w.receipts + [e.receipt],
         books := if Succeeded(p, w, e) then Booked(p, w, e) else w.books)
    else if e.Internal? then
      if Available(w.books, e.payer) < e.n then w else w.(books := Gain(Spend(w.books, e.payer, e.n), e.payee, e.n))
    else if Delivers(p, w, e) then w.(tokens := e.after, receipts := w.receipts + [e.receipt])
    else if Verified(p, w, e) then w.(books := Gain(w.books, e.payee, Credited(p, w, e)), credited := w.credited + {e.tx})
    else w
  }

  function If(c: bool, n: int): int { if c then n else 0 }

  /** By how much an event moves the omnibus wallet apart from the books... */
  function DriftOmnibus(p: Pool, w: World, e: Event): int {
    if Verified(p, w, e) then Due(p, w, e.tx) - Credited(p, w, e)
    else if !Mined(p, w, e) then 0
    else
      var n, lost := Size(p, w, e), !Succeeded(p, w, e);
      match e
      case Outbound(_, _, _, _, _) => If(Payee(p, w, e) == p.omnibus, n) - If(lost, n)
      case PoolHold(_, _, _, _, _) => -If(lost, n)
      case PoolRelease(_, to, _, _, _) => If(Payee(p, w, e) == p.omnibus && (lost || !Local(p.env, to.finId)), n)
      case PoolRollback(_, _, _, _) => If(lost, n)
  }

  /** ... and the escrow wallet. */
  function DriftEscrow(p: Pool, w: World, e: Event): int {
    if Delivers(p, w, e) then ToEscrow(p, e.receipt)
    else if !Mined(p, w, e) then 0
    else
      var n, lost := Size(p, w, e), !Succeeded(p, w, e);
      match e
      case Outbound(_, _, _, _, _) => If(Payee(p, w, e) == p.env.escrow, n)
      case PoolHold(_, _, _, _, _) => If(lost, n)
      case PoolRelease(_, _, _, _, _) => If(Payee(p, w, e) == p.env.escrow, n) - If(lost, n)
      case PoolRollback(_, _, _, _) => -If(lost, n)
  }

  function Step(p: Pool, w: World, e: Event): World {
    Moves(p, w, e).(gapOmnibus := w.gapOmnibus + DriftOmnibus(p, w, e), gapEscrow := w.gapEscrow + DriftEscrow(p, w, e))
  }

  function Run(p: Pool, w: World, events: seq<Event>): World
    decreases |events|
  {
    if events == [] then w else Step(p, Run(p, w, events[..|events| - 1]), events[|events| - 1])
  }

  /* ---- backing ---- */

  const Same: nat -> nat := (n: nat) => n
  const LockedAmount: Reserve -> nat := (r: Reserve) => r.amount

  ghost function Owned(b: Books): nat { Total(b.available, Same) }
  ghost function Locked(b: Books): nat { Total(b.locked, LockedAmount) }

  /** What has come to the omnibus wallet and has not been credited. */
  function Unclaimed(p: Pool, receipts: seq<TxReceipt>, credited: set<Tx>): nat {
    if receipts == [] then 0 else
    var last := |receipts| - 1;
    Unclaimed(p, receipts[..last], credited) + if last in credited then 0 else ToOmnibus(p, receipts[last])
  }

  ghost function Waiting(p: Pool, w: World): nat { Unclaimed(p, w.receipts, w.credited) }

  /** What investors can claim: available plus locked. */
  ghost function Claims(w: World): nat { Owned(w.books) + Locked(w.books) }

  /** The omnibus wallet backs what is available, the escrow wallet what is
      locked, each up to its gap. */
  ghost predicate Backed(p: Pool, w: World) {
    && p.omnibus != p.env.escrow
    && Free(w.tokens, p.omnibus) == Owned(w.books) + Waiting(p, w) + w.gapOmnibus
    && Free(w.tokens, p.env.escrow) == Locked(w.books) + w.gapEscrow
    && forall tx :: tx in w.credited ==> tx < |w.receipts|
  }

  lemma OneMoreReceipt(p: Pool, receipts: seq<TxReceipt>, credited: set<Tx>, receipt: TxReceipt)
    requires |receipts| !in credited
    ensures Unclaimed(p, receipts + [receipt], credited) == Unclaimed(p, receipts, credited) + ToOmnibus(p, receipt)
  {
    assert (receipts + [receipt])[..|receipts|] == receipts;
  }

  lemma {:induction false} OneMoreCredited(p: Pool, receipts: seq<TxReceipt>, credited: set<Tx>, tx: Tx)
    ensures Unclaimed(p, receipts, credited + {tx})
         == Unclaimed(p, receipts, credited) - if tx in credited || tx >= |receipts| then 0 else ToOmnibus(p, receipts[tx])
  {
    if receipts != [] {
      OneMoreCredited(p, receipts[..|receipts| - 1], credited, tx);
    }
  }

  /** A transaction of ours brings nothing from outside. */
  lemma {:induction false} OursBringsNothing(p: Pool, logs: seq<Log>, to: Address)
    requires forall j :: 0 <= j < |logs| && EmittedBy(logs[j], p.rec.contract) && IsTransfer(logs[j]) ==> FromPool(p, logs[j])
    ensures Arrived(p, logs, to) == 0
  {
    if logs != [] {
      forall j | 0 <= j < |logs[1..]| && EmittedBy(logs[1..][j], p.rec.contract) && IsTransfer(logs[1..][j]) ensures FromPool(p, logs[1..][j]) {
        assert logs[1..][j] == logs[j + 1];
      }
      OursBringsNothing(p, logs[1..], to);
    }
  }

  lemma PaidComesFromPool(p: Pool, from: Address, to: Address, n: nat)
    requires from == p.omnibus || from == p.env.escrow
    ensures FromPool(p, TransferLog(p.rec.contract, from, to, n))
  {
    OwnTopic(from);
  }

  lemma MinedBringsNothing(p: Pool, w: World, e: Event)
    requires Mined(p, w, e)
    ensures ToOmnibus(p, e.receipt) == 0
  {
    PaidComesFromPool(p, Payer(p, e), Payee(p, w, e), Size(p, w, e));
    var i :| 0 <= i < |e.receipt.logs| && ShowsAt(p, e.receipt, Paid(p, w, e), i);
    OursBringsNothing(p, e.receipt.logs, p.omnibus);
  }

  lemma GainAdds(b: Books, who: Investor, n: nat)
    ensures Owned(Gain(b, who, n)) == Owned(b) + n && Locked(Gain(b, who, n)) == Locked(b)
  {
    TotalSet<Investor, nat>(b.available, Same, who, Available(b, who) + n);
  }

  lemma SpendTakes(b: Books, who: Investor, n: nat)
    requires n <= Available(b, who)
    ensures Owned(Spend(b, who, n)) == Owned(b) - n && Locked(Spend(b, who, n)) == Locked(b)
  {
    TotalSet<Investor, nat>(b.available, Same, who, Available(b, who) - n);
  }

  lemma UnlockTakes(b: Books, id: OpId)
    requires id in b.locked
    ensures Locked(Unlock(b, id)) == Locked(b) - b.locked[id].amount && Owned(Unlock(b, id)) == Owned(b)
  {
    TotalWithout(b.locked, LockedAmount, id);
  }

  lemma InternalBacked(p: Pool, w: World, e: Event)
    requires Backed(p, w) && e.Internal?
    ensures Backed(p, Step(p, w, e)) && Claims(Step(p, w, e)) == Claims(w)
  {
    if e.n <= Available(w.books, e.payer) {
      SpendTakes(w.books, e.payer, e.n);
      GainAdds(Spend(w.books, e.payer, e.n), e.payee, e.n);
    }
  }

  /** A payment out of a wallet of the pool, and by how much it moves a wallet. */
  lemma PaysFrom(l: Ledger, from: Address, to: Address, n: nat, who: Address)
    requires StdTransfer(l, from, to, n).Ok?
    ensures Free(StdTransfer(l, from, to, n).value, who) == Free(l, who) - If(who == from, n) + If(who == to, n)
  {
  }

  lemma OutboundAsks(p: Pool, w: World, e: Event)
    requires e.Outbound? && Asked(p, w, e).Ok?
    ensures Asked(p, w, e) == StdTransfer(w.tokens, p.omnibus, Payee(p, w, e), Size(p, w, e)) && Size(p, w, e) <= Available(w.books, e.payer)
  {
  }

  /** A payment out of the omnibus wallet, booked or not. */
  function PaidOut(p: Pool, w: World, payer: Investor, to: Address, n: nat, told: bool, receipt: TxReceipt): World
    requires n <= Available(w.books, payer) && StdTransfer(w.tokens, p.omnibus, to, n).Ok?
  {
    w.(tokens := StdTransfer(w.tokens, p.omnibus, to, n).value, books := if told then Spend(w.books, payer, n) else w.books,
       receipts := w.receipts + [receipt],
       gapOmnibus := w.gapOmnibus + If(to == p.omnibus, n) - If(!told, n), gapEscrow := w.gapEscrow + If(to == p.env.escrow, n))
  }

  lemma PaidOutBacked(p: Pool, w: World, payer: Investor, to: Address, n: nat, told: bool, receipt: TxReceipt)
    requires Backed(p, w) && n <= Available(w.books, payer) && StdTransfer(w.tokens, p.omnibus, to, n).Ok? && ToOmnibus(p, receipt) == 0
    ensures Backed(p, PaidOut(p, w, payer, to, n, told, receipt)) && Claims(PaidOut(p, w, payer, to, n, told, receipt)) == Claims(w) - If(told, n)
  {
    PaysFrom(w.tokens, p.omnibus, to, n, p.omnibus);
    PaysFrom(w.tokens, p.omnibus, to, n, p.env.escrow);
    SpendTakes(w.books, payer, n);
    OneMoreReceipt(p, w.receipts, w.credited, receipt);
  }

  lemma OutboundBacked(p: Pool, w: World, e: Event)
    requires Backed(p, w) && e.Outbound?
    ensures Backed(p, Step(p, w, e))
    ensures Claims(Step(p, w, e)) == Claims(w) - if Succeeded(p, w, e) then Size(p, w, e) else 0
  {
    if Mined(p, w, e) {
      OutboundAsks(p, w, e);
      OutboundPays(p, w, e);
      MinedBringsNothing(p, w, e);
      PaidOutBacked(p, w, e.payer, Payee(p, w, e), Size(p, w, e), Succeeded(p, w, e), e.receipt);
    }
  }

  lemma OutboundPays(p: Pool, w: World, e: Event)
    requires e.Outbound? && Mined(p, w, e) && Size(p, w, e) <= Available(w.books, e.payer)
    requires Asked(p, w, e) == StdTransfer(w.tokens, p.omnibus, Payee(p, w, e), Size(p, w, e))
    ensures Step(p, w, e) == PaidOut(p, w, e.payer, Payee(p, w, e), Size(p, w, e), Succeeded(p, w, e), e.receipt)
  {
  }

  lemma HoldAsks(p: Pool, w: World, e: Event)
    requires e.PoolHold? && Asked(p, w, e).Ok?
    ensures Asked(p, w, e) == StdTransfer(w.tokens, p.omnibus, p.env.escrow, Size(p, w, e))
    ensures e.id !in w.books.locked && Size(p, w, e) <= Available(w.books, e.payer)
  {
  }

  /** A payment into the escrow wallet, booked or not. */
  function PaidIn(p: Pool, w: World, id: OpId, payer: Investor, n: nat, told: bool, receipt: TxReceipt): World
    requires n <= Available(w.books, payer) && StdTransfer(w.tokens, p.omnibus, p.env.escrow, n).Ok?
  {
    w.(tokens := StdTransfer(w.tokens, p.omnibus, p.env.escrow, n).value, receipts := w.receipts + [receipt],
       books := if told then Spend(w.books, payer, n).(locked := w.books.locked[id := Reserve(payer, n)]) else w.books,
       gapOmnibus := w.gapOmnibus - If(!told, n), gapEscrow := w.gapEscrow + If(!told, n))
  }

  lemma PaidInBacked(p: Pool, w: World, id: OpId, payer: Investor, n: nat, told: bool, receipt: TxReceipt)
    requires Backed(p, w) && n <= Available(w.books, payer) && StdTransfer(w.tokens, p.omnibus, p.env.escrow, n).Ok?
    requires id !in w.books.locked && ToOmnibus(p, receipt) == 0
    ensures Backed(p, PaidIn(p, w, id, payer, n, told, receipt)) && Claims(PaidIn(p, w, id, payer, n, told, receipt)) == Claims(w)
  {
    PaysFrom(w.tokens, p.omnibus, p.env.escrow, n, p.omnibus);
    PaysFrom(w.tokens, p.omnibus, p.env.escrow, n, p.env.escrow);
    SpendTakes(w.books, payer, n);
    TotalSet(w.books.locked, LockedAmount, id, Reserve(payer, n));
    OneMoreReceipt(p, w.receipts, w.credited, receipt);
  }

  lemma HoldBacked(p: Pool, w: World, e: Event)
    requires Backed(p, w) && e.PoolHold?
    ensures Backed(p, Step(p, w, e)) && Claims(Step(p, w, e)) == Claims(w)
  {
    if Mined(p, w, e) {
      HoldAsks(p, w, e);
      HoldPays(p, w, e);
      MinedBringsNothing(p, w, e);
      PaidInBacked(p, w, e.id, e.payer, Size(p, w, e), Succeeded(p, w, e), e.receipt);
    }
  }

  lemma HoldPays(p: Pool, w: World, e: Event)
    requires e.PoolHold? && Mined(p, w, e) && Size(p, w, e) <= Available(w.books, e.payer)
    requires Asked(p, w, e) == StdTransfer(w.tokens, p.omnibus, p.env.escrow, Size(p, w, e))
    ensures Step(p, w, e) == PaidIn(p, w, e.id, e.payer, Size(p, w, e), Succeeded(p, w, e), e.receipt)
  {
  }

  lemma ReleaseAsks(p: Pool, w: World, e: Event)
    requires e.PoolRelease? && Asked(p, w, e).Ok?
    ensures Asked(p, w, e) == StdTransfer(w.tokens, p.env.escrow, Payee(p, w, e), Size(p, w, e))
    ensures e.id in w.books.locked && w.books.locked[e.id].amount == Size(p, w, e)
    ensures Local(p.env, e.to.finId) ==> Payee(p, w, e) == p.omnibus
  {
  }

  /** A lock settled: paid over to an investor here, or gone with the tokens. */
  function Settled(b: Books, id: OpId, payee: Option<Investor>): Books
    requires id in b.locked
  {
    if payee.Some? then Gain(Unlock(b, id), payee.value, b.locked[id].amount) else Unlock(b, id)
  }

  /** A payment out of the escrow wallet, booked or not. */
  function PaidOver(p: Pool, w: World, id: OpId, to: Address, payee: Option<Investor>, told: bool, receipt: TxReceipt): World
    requires id in w.books.locked && StdTransfer(w.tokens, p.env.escrow, to, w.books.locked[id].amount).Ok?
  {
    var n := w.books.locked[id].amount;
    w.(tokens := StdTransfer(w.tokens, p.env.escrow, to, n).value, books := if told then Settled(w.books, id, payee) else w.books,
       receipts := w.receipts + [receipt],
       gapOmnibus := w.gapOmnibus + If(to == p.omnibus && (!told || payee.None?), n),
       gapEscrow := w.gapEscrow + If(to == p.env.escrow, n) - If(!told, n))
  }

  lemma SettledBooks(b: Books, id: OpId, payee: Option<Investor>)
    requires id in b.locked
    ensures Locked(Settled(b, id, payee)) == Locked(b) - b.locked[id].amount
    ensures Owned(Settled(b, id, payee)) == Owned(b) + If(payee.Some?, b.locked[id].amount)
  {
    UnlockTakes(b, id);
    if payee.Some? {
      GainAdds(Unlock(b, id), payee.value, b.locked[id].amount);
    }
  }

  lemma PaidOverBacked(p: Pool, w: World, id: OpId, to: Address, payee: Option<Investor>, told: bool, receipt: TxReceipt)
    requires Backed(p, w) && id in w.books.locked && StdTransfer(w.tokens, p.env.escrow, to, w.books.locked[id].amount).Ok?
    requires (payee.Some? ==> to == p.omnibus) && ToOmnibus(p, receipt) == 0
    ensures Backed(p, PaidOver(p, w, id, to, payee, told, receipt))
    ensures Claims(PaidOver(p, w, id, to, payee, told, receipt)) == Claims(w) - If(told && payee.None?, w.books.locked[id].amount)
  {
    var n := w.books.locked[id].amount;
    PaysFrom(w.tokens, p.env.escrow, to, n, p.omnibus);
    PaysFrom(w.tokens, p.env.escrow, to, n, p.env.escrow);
    SettledBooks(w.books, id, payee);
    OneMoreReceipt(p, w.receipts, w.credited, receipt);
  }

  function PayeeHere(p: Pool, to: Destination): Option<Investor> { if Local(p.env, to.finId) then Some(Investor(to.finId)) else None }

  lemma ReleaseBacked(p: Pool, w: World, e: Event)
    requires Backed(p, w) && e.PoolRelease?
    ensures Backed(p, Step(p, w, e))
    ensures Claims(Step(p, w, e)) == Claims(w) - if Succeeded(p, w, e) && !Local(p.env, e.to.finId) then Size(p, w, e) else 0
  {
    if Mined(p, w, e) {
      ReleaseAsks(p, w, e);
      ReleasePays(p, w, e);
      MinedBringsNothing(p, w, e);
      PaidOverBacked(p, w, e.id, Payee(p, w, e), PayeeHere(p, e.to), Succeeded(p, w, e), e.receipt);
    }
  }

  lemma ReleasePays(p: Pool, w: World, e: Event)
    requires e.PoolRelease? && Mined(p, w, e) && e.id in w.books.locked && w.books.locked[e.id].amount == Size(p, w, e)
    requires Asked(p, w, e) == StdTransfer(w.tokens, p.env.escrow, Payee(p, w, e), Size(p, w, e))
    ensures Step(p, w, e) == PaidOver(p, w, e.id, Payee(p, w, e), PayeeHere(p, e.to), Succeeded(p, w, e), e.receipt)
  {
    ReleaseMoves(p, w, e);
    ReleaseDrifts(p, w, e);
  }

  lemma ReleaseDrifts(p: Pool, w: World, e: Event)
    requires e.PoolRelease? && Mined(p, w, e)
    ensures DriftOmnibus(p, w, e) == If(Payee(p, w, e) == p.omnibus && (!Succeeded(p, w, e) || PayeeHere(p, e.to).None?), Size(p, w, e))
    ensures DriftEscrow(p, w, e) == If(Payee(p, w, e) == p.env.escrow, Size(p, w, e)) - If(!Succeeded(p, w, e), Size(p, w, e))
  {
  }

  lemma ReleaseMoves(p: Pool, w: World, e: Event)
    requires e.PoolRelease? && Mined(p, w, e) && e.id in w.books.locked && w.books.locked[e.id].amount == Size(p, w, e)
    ensures Moves(p, w, e) == w.(tokens := Asked(p, w, e).value, receipts := w.receipts + [e.receipt],
                                 books := if Succeeded(p, w, e) then Settled(w.books, e.id, PayeeHere(p, e.to)) else w.books)
  {
  }

  lemma RollbackAsks(p: Pool, w: World, e: Event)
    requires e.PoolRollback? && Asked(p, w, e).Ok?
    ensures Asked(p, w, e) == StdTransfer(w.tokens, p.env.escrow, p.omnibus, Size(p, w, e))
    ensures e.id in w.books.locked && w.books.locked[e.id].amount == Size(p, w, e)
  {
  }

  lemma RollbackPays(p: Pool, w: World, e: Event)
    requires e.PoolRollback? && Mined(p, w, e) && e.id in w.books.locked && w.books.locked[e.id].amount == Size(p, w, e)
    requires p.omnibus != p.env.escrow && Asked(p, w, e) == StdTransfer(w.tokens, p.env.escrow, p.omnibus, Size(p, w, e))
    ensures Step(p, w, e) == PaidOver(p, w, e.id, p.omnibus, Some(w.books.locked[e.id].owner), Succeeded(p, w, e), e.receipt)
  {
  }

  lemma RollbackBacked(p: Pool, w: World, e: Event)
    requires Backed(p, w) && e.PoolRollback?
    ensures Backed(p, Step(p, w, e)) && Claims(Step(p, w, e)) == Claims(w)
  {
    if Mined(p, w, e) {
      RollbackAsks(p, w, e);
      RollbackPays(p, w, e);
      MinedBringsNothing(p, w, e);
      PaidOverBacked(p, w, e.id, p.omnibus, Some(w.books.locked[e.id].owner), Succeeded(p, w, e), e.receipt);
    }
  }

  lemma DeliverBacked(p: Pool, w: World, e: Event)
    requires Backed(p, w) && e.Deliver?
    ensures Backed(p, Step(p, w, e)) && Claims(Step(p, w, e)) == Claims(w)
  {
    if Delivers(p, w, e) {
      OneMoreReceipt(p, w.receipts, w.credited, e.receipt);
    }
  }

  lemma InboundBacked(p: Pool, w: World, e: Event)
    requires Backed(p, w) && e.Inbound?
    ensures Backed(p, Step(p, w, e))
    ensures Claims(Step(p, w, e)) == Claims(w) + if Verified(p, w, e) then Credited(p, w, e) else 0
    ensures Verified(p, w, e) ==> Step(p, w, e).gapOmnibus == w.gapOmnibus + Due(p, w, e.tx) - Credited(p, w, e)
  {
    if Verified(p, w, e) {
      OneMoreCredited(p, w.receipts, w.credited, e.tx);
      GainAdds(w.books, e.payee, Credited(p, w, e));
    }
  }

  /** Every event keeps the books and the wallets apart by exactly the gaps, and
      only outbound transfers and releases to another organisation, of which the
      caller is told, reduce what investors can claim. */
  lemma StepBacked(p: Pool, w: World, e: Event)
    requires Backed(p, w)
    ensures Backed(p, Step(p, w, e))
    ensures Claims(Step(p, w, e)) < Claims(w) ==> Succeeded(p, w, e) && (e.Outbound? || (e.PoolRelease? && !Local(p.env, e.to.finId)))
  {
    match e {
      case Internal(_, _, _) => InternalBacked(p, w, e);
      case Outbound(_, _, _, _, _) => OutboundBacked(p, w, e);
      case PoolHold(_, _, _, _, _) => HoldBacked(p, w, e);
      case PoolRelease(_, _, _, _, _) => ReleaseBacked(p, w, e);
      case PoolRollback(_, _, _, _) => RollbackBacked(p, w, e);
      case Deliver(_, _) => DeliverBacked(p, w, e);
      case Inbound(_, _, _, _) => InboundBacked(p, w, e);
    }
  }

  /** Over every run the pool holds what investors can claim and what has arrived
      unclaimed, up to the gaps. */
  lemma {:induction false} RunBacked(p: Pool, w: World, events: seq<Event>)
    requires Backed(p, w)
    ensures Backed(p, Run(p, w, events))
    ensures var w' := Run(p, w, events);
            Free(w'.tokens, p.omnibus) + Free(w'.tokens, p.env.escrow)
            == Claims(w') + Waiting(p, w') + w'.gapOmnibus + w'.gapEscrow
    decreases |events|
  {
    if events != [] {
      RunBacked(p, w, events[..|events| - 1]);
      StepBacked(p, Run(p, w, events[..|events| - 1]), events[|events| - 1]);
    }
  }

  /* ---- when the backing is exact ---- */

  /** The omnibus wallet holds what is available and unclaimed, escrow what is locked. */
  ghost predicate Exact(p: Pool, w: World) {
    && Free(w.tokens, p.omnibus) == Owned(w.books) + Waiting(p, w)
    && Free(w.tokens, p.env.escrow) == Locked(w.books)
  }

  /** The logs after the one that is believed. */
  function AfterFirst(logs: seq<Log>, to: Address): seq<Log> {
    if logs == [] then [] else if IsTransferTo(logs[0], to) then logs[1..] else AfterFirst(logs[1..], to)
  }

  lemma {:induction false} ArrivedFromFirst(p: Pool, logs: seq<Log>, to: Address)
    requires FirstTransferTo(logs, to).Some?
    ensures var first := FirstTransferTo(logs, to).value;
            Arrived(p, logs, to) == (if FromOutside(p, first) then first.data else 0) + Arrived(p, AfterFirst(logs, to), to)
  {
    if !IsTransferTo(logs[0], to) {
      ArrivedFromFirst(p, logs[1..], to);
    }
  }

  /** What other logs than the one believed brought. */
  function Besides(p: Pool, w: World, e: Event): nat
    requires Verified(p, w, e)
  {
    Arrived(p, AfterFirst(w.receipts[e.tx].logs, p.omnibus), p.omnibus)
  }

  /** What is credited is what is due: a first claim, on a log of the asset's
      contract that is not from a wallet of the pool, with nothing besides -- or
      else a claim in which the amounts happen to be equal. */
  predicate CreditsItsDue(p: Pool, w: World, e: Event)
    requires Verified(p, w, e)
  {
    if e.tx in w.credited then Credited(p, w, e) == 0
    else if FromOutside(p, Believed(p, w, e)) then Besides(p, w, e) == 0
    else Besides(p, w, e) == Credited(p, w, e)
  }

  /** More is credited than is due: a positive amount, of a transaction that has
      been credited before, or on a log that is not the asset contract's or comes
      from a wallet of the pool, without enough besides. */
  predicate Overclaims(p: Pool, w: World, e: Event)
    requires Verified(p, w, e)
  {
    Credited(p, w, e) > 0 && (e.tx in w.credited || (!FromOutside(p, Believed(p, w, e)) && Besides(p, w, e) < Credited(p, w, e)))
  }

  lemma ClaimIff(p: Pool, w: World, e: Event)
    requires Verified(p, w, e)
    ensures CreditsItsDue(p, w, e) <==> Credited(p, w, e) == Due(p, w, e.tx)
    ensures Overclaims(p, w, e) <==> Credited(p, w, e) > Due(p, w, e.tx)
  {
    ArrivedFromFirst(p, w.receipts[e.tx].logs, p.omnibus);
  }

  /** The events that part wallets and books, each by a positive amount: a payment
      to a wallet of the pool that is booked as having left, or that nobody asked
      for; a transaction that was mined and the caller not told, unless it only
      moved tokens within the wallet; and a claim credited for something else
      than what it is due. */
  predicate Parts(p: Pool, w: World, e: Event) {
    match e
    case Outbound(_, _, _, _, _) =>
      Mined(p, w, e) && Size(p, w, e) > 0 && if Succeeded(p, w, e) then Payee(p, w, e) in {p.omnibus, p.env.escrow} else Payee(p, w, e) != p.omnibus
    case PoolRelease(_, to, _, _, _) =>
      Mined(p, w, e) && Size(p, w, e) > 0
      && if !Succeeded(p, w, e) then Payee(p, w, e) != p.env.escrow
         else !Local(p.env, to.finId) && Payee(p, w, e) in {p.omnibus, p.env.escrow}
    case PoolHold(_, _, _, _, _) => Mined(p, w, e) && Size(p, w, e) > 0 && !Succeeded(p, w, e)
    case PoolRollback(_, _, _, _) => Mined(p, w, e) && Size(p, w, e) > 0 && !Succeeded(p, w, e)
    case Deliver(_, _) => Delivers(p, w, e) && ToEscrow(p, e.receipt) > 0
    case Inbound(_, _, _, _) => Verified(p, w, e) && !CreditsItsDue(p, w, e)
    case Internal(_, _, _) => false
  }

  lemma PartsIff(p: Pool, w: World, e: Event)
    requires p.omnibus != p.env.escrow
    ensures Parts(p, w, e) <==> DriftOmnibus(p, w, e) != 0 || DriftEscrow(p, w, e) != 0
  {
    if Verified(p, w, e) {
      ClaimIff(p, w, e);
    } else if Mined(p, w, e) {
      MinedPartsIff(p, w, e);
    }
  }

  lemma MinedPartsIff(p: Pool, w: World, e: Event)
    requires p.omnibus != p.env.escrow && Mined(p, w, e)
    ensures Parts(p, w, e) <==> DriftOmnibus(p, w, e) != 0 || DriftEscrow(p, w, e) != 0
  {
  }

  lemma ExactIffNoGap(p: Pool, w: World)
    requires Backed(p, w)
    ensures Exact(p, w) <==> w.gapOmnibus == 0 && w.gapEscrow == 0
  {
  }

  lemma StepExactIff(p: Pool, w: World, e: Event)
    requires Backed(p, w) && Exact(p, w)
    ensures Exact(p, Step(p, w, e)) <==> !Parts(p, w, e)
  {
    StepBacked(p, w, e);
    PartsIff(p, w, e);
    ExactIffNoGap(p, w);
    ExactIffNoGap(p, Step(p, w, e));
  }

  /** No event of a run parts wallets and books. */
  ghost predicate NothingParts(p: Pool, w: World, events: seq<Event>)
    decreases |events|
  {
    events == [] || (NothingParts(p, w, events[..|events| - 1]) && !Parts(p, Run(p, w, events[..|events| - 1]), events[|events| - 1]))
  }

  ghost predicate AlwaysExact(p: Pool, w: World, events: seq<Event>)
    decreases |events|
  {
    Exact(p, Run(p, w, events)) && (events == [] || AlwaysExact(p, w, events[..|events| - 1]))
  }

  /** Exact backing: escrow is what is locked and omnibus what is available and
      unclaimed, at every moment of a run, if and only if no event of the run
      parts wallets and books. */
  lemma {:induction false} ExactlyBackedIff(p: Pool, w: World, events: seq<Event>)
    requires Backed(p, w) && Exact(p, w)
    ensures AlwaysExact(p, w, events) <==> NothingParts(p, w, events)
    decreases |events|
  {
    if events != [] {
      var before, e := Run(p, w, events[..|events| - 1]), events[|events| - 1];
      ExactlyBackedIff(p, w, events[..|events| - 1]);
      RunBacked(p, w, events[..|events| - 1]);
      if AlwaysExact(p, w, events[..|events| - 1]) {
        StepExactIff(p, before, e);
      }
    }
  }

  /** A payment to the outside of whose transaction the caller is not told. */
  predicate LosesPayment(p: Pool, w: World, e: Event) {
    (e.Outbound? || e.PoolRelease?) && Mined(p, w, e) && !Succeeded(p, w, e) && Size(p, w, e) > 0 && Payee(p, w, e) !in {p.omnibus, p.env.escrow}
  }

  /** The events by which the pool as a whole comes to hold less than it owes. */
  predicate Shortens(p: Pool, w: World, e: Event) { LosesPayment(p, w, e) || (Verified(p, w, e) && Overclaims(p, w, e)) }

  lemma MinedFallsShortIff(p: Pool, w: World, e: Event)
    requires p.omnibus != p.env.escrow && Mined(p, w, e)
    ensures DriftOmnibus(p, w, e) + DriftEscrow(p, w, e) < 0 <==> LosesPayment(p, w, e)
  {
  }

  /** The pool as a whole falls short by a payment to the outside whose reply is
      lost, and by a claim of a transaction that has been credited before or on a
      log that is not the asset contract's or not from outside; each of these
      makes it fall short, and nothing else does. */
  lemma FallsShortIff(p: Pool, w: World, e: Event)
    requires p.omnibus != p.env.escrow
    ensures DriftOmnibus(p, w, e) + DriftEscrow(p, w, e) < 0 <==> Shortens(p, w, e)
  {
    if Verified(p, w, e) {
      ClaimIff(p, w, e);
    } else if Mined(p, w, e) {
      MinedFallsShortIff(p, w, e);
    }
  }

  ghost predicate NothingShortens(p: Pool, w: World, events: seq<Event>)
    decreases |events|
  {
    events == [] || (NothingShortens(p, w, events[..|events| - 1]) && !Shortens(p, Run(p, w, events[..|events| - 1]), events[|events| - 1]))
  }

  /** A run without such an event never leaves the pool holding less than it owes. */
  lemma {:induction false} NeverShort(p: Pool, w: World, events: seq<Event>)
    requires Backed(p, w) && w.gapOmnibus + w.gapEscrow >= 0 && NothingShortens(p, w, events)
    ensures var w' := Run(p, w, events);
            Free(w'.tokens, p.omnibus) + Free(w'.tokens, p.env.escrow) >= Claims(w') + Waiting(p, w')
    ensures Run(p, w, events).gapOmnibus + Run(p, w, events).gapEscrow >= w.gapOmnibus + w.gapEscrow
    decreases |events|
  {
    RunBacked(p, w, events);
    if events != [] {
      var before, e := Run(p, w, events[..|events| - 1]), events[|events| - 1];
      NeverShort(p, w, events[..|events| - 1]);
      FallsShortIff(p, before, e);
    }
  }

  /** As long as the wallets do not fall short the chain refuses nothing for want
      of tokens: an operation goes ahead exactly if the ledger has the quantity
      available, or on that hold, and there is somebody to pay. */
  lemma CoveredIsNeverShort(p: Pool, w: World, e: Event)
    requires Backed(p, w) && w.gapOmnibus >= 0 && w.gapEscrow >= 0
    ensures e.Outbound? ==>
              (Asked(p, w, e).Ok? <==> p.read(e.quantity).Ok? && 0 <= p.read(e.quantity).value <= Available(w.books, e.payer)
                                       && exists to :: PaidAt(p.env, e.to, to))
    ensures e.PoolHold? ==>
              (Asked(p, w, e).Ok? <==> p.read(e.quantity).Ok? && 0 <= p.read(e.quantity).value <= Available(w.books, e.payer)
                                       && e.id !in w.books.locked)
    ensures e.PoolRollback? ==> (Asked(p, w, e).Ok? <==> e.id in w.books.locked && p.read(e.quantity) == Ok(w.books.locked[e.id].amount))
    ensures e.PoolRelease? ==>
              (Asked(p, w, e).Ok? <==> e.id in w.books.locked && p.read(e.quantity) == Ok(w.books.locked[e.id].amount) && CanBePaid(p, e.to))
  {
    if e.Outbound? || e.PoolHold? {
      SpendTakes(w.books, e.payer, Available(w.books, e.payer));
    }
    if (e.PoolRelease? || e.PoolRollback?) && e.id in w.books.locked {
      UnlockTakes(w.books, e.id);
    }
    CanBePaidIff(p, e);
  }

  /** A release can be paid: to an investor of ours or to an address carried, and
      the account carried is not of another chain. */
  ghost predicate CanBePaid(p: Pool, to: Destination) {
    && !OfAnotherChain(to.account, p.env.chainId)
    && ((to.finId in p.env.accounts && p.env.accounts[to.finId].text != "")
        || exists a :: Carries(to.account, p.env.chainId, a) && a.text != "")
  }

  lemma CanBePaidIff(p: Pool, e: Event)
    ensures e.PoolRelease? ==> (ReleaseTarget(p.env, p.omnibus, e.to).Ok? <==> CanBePaid(p, e.to))
    ensures e.Outbound? ==> (DestinationAddress(p.env, e.to).Ok? <==> exists to :: PaidAt(p.env, e.to, to))
  {
  }
}
