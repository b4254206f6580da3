/** Inputs on which the pool's wallets and the internal ledger part. */
module OmnibusWitness {
  import opened Wrappers
  import opened Chain
  import opened Amounts
  import opened TokenStandards
  import opened Custody
  import opened Omnibus
  import opened OmnibusBacking
  import opened OmnibusInbound
  import opened Totals

  const OMNIBUS := Address("0x01")
  const ESCROW := Address("0x02")
  const OUTSIDE := Address("0x03")
  const TOKEN := Address("0x04")
  const ALICE := Investor("alice")

  function Hundred(): Reading { quantity => Ok(100) }

  function OurPool(): Pool {
    Pool(Env(map[], map[], map[], None, None, map[], ESCROW, false, 1, (quantity, decimals) => Ok(100)),
         OMNIBUS, AssetRecord(TOKEN, 0, "ERC20"), Hundred())
  }

  /** Alice owns a hundred, and the omnibus wallet holds them. */
  function Before(): World {
    World(Ledger(map[OMNIBUS := 100], map[], 100), Books(map[ALICE := 100], map[]), [], {}, 0, 0)
  }

  lemma BackedBefore()
    ensures Backed(OurPool(), Before()) && Exact(OurPool(), Before())
  {
    TotalSet<Investor, nat>(map[], Same, ALICE, 100);
    assert OMNIBUS.text[3] != ESCROW.text[3];
  }

  /** The receipt of a payment of a hundred, and nothing else. */
  function PaidReceipt(from: Address, to: Address): TxReceipt {
    TxReceipt(1, Some(TOKEN), 0, [TransferLog(TOKEN, from, to, 100)])
  }

  function SendTo(to: Address, fate: Fate): Event {
    Outbound(ALICE, Destination("counterparty", Some(WalletAccount(to))), "100", fate, PaidReceipt(OMNIBUS, to))
  }

  lemma Sends(to: Address, fate: Fate)
    requires to.text != ""
    ensures var p, w := OurPool(), Before();
            && Asked(p, w, SendTo(to, fate)) == StdTransfer(w.tokens, OMNIBUS, to, 100) && Asked(p, w, SendTo(to, fate)).Ok?
            && Payee(p, w, SendTo(to, fate)) == to && Size(p, w, SendTo(to, fate)) == 100
            && Free(Asked(p, w, SendTo(to, fate)).value, OMNIBUS) == (if to == OMNIBUS then 100 else 0)
            && Shows(p, SendTo(to, fate).receipt, Paid(p, w, SendTo(to, fate)))
  {
    assert Covers(OurPool(), Before().books, ALICE, "100");
    ShowsOne(OurPool(), OMNIBUS, to);
  }

  lemma ShowsOne(p: Pool, from: Address, to: Address)
    requires p.rec.contract == TOKEN
    ensures Shows(p, PaidReceipt(from, to), TransferLog(TOKEN, from, to, 100))
    ensures ShowsAt(p, PaidReceipt(from, to), TransferLog(TOKEN, from, to, 100), 0)
  {
    assert ShowsAt(p, PaidReceipt(from, to), TransferLog(TOKEN, from, to, 100), 0);
  }

  /** A transfer out to the omnibus wallet itself: debited, and still there. */
  lemma PaidToThePool()
    ensures var p, w, e := OurPool(), Before(), SendTo(OMNIBUS, Answers);
            Parts(p, w, e) && DriftOmnibus(p, w, e) == 100 && !Exact(p, Step(p, w, e))
  {
    var p, w, e := OurPool(), Before(), SendTo(OMNIBUS, Answers);
    Sends(OMNIBUS, Answers);
    PayingThePool(p, w, e);
    BackedBefore();
    StepExactIff(p, w, e);
  }

  lemma PayingThePool(p: Pool, w: World, e: Event)
    requires e.Outbound? && Succeeded(p, w, e) && Payee(p, w, e) == p.omnibus && Size(p, w, e) > 0
    ensures Parts(p, w, e) && DriftOmnibus(p, w, e) == Size(p, w, e)
  {
  }

  lemma LostOutside(p: Pool, w: World, e: Event)
    requires p == OurPool() && w == Before() && e == SendTo(OUTSIDE, Throws(true))
    ensures Mined(p, w, e) && !Succeeded(p, w, e) && Payee(p, w, e) != p.omnibus && Size(p, w, e) > 0
    ensures Free(Asked(p, w, e).value, OMNIBUS) == 0
  {
    assert OMNIBUS.text[3] != OUTSIDE.text[3];
    Sends(OUTSIDE, Throws(true));
  }

  /** A transfer to the outside that is mined and whose reply is lost: Alice has
      her hundred back, and the tokens are gone. */
  lemma ReplyLost(p: Pool, w: World, e: Event)
    requires p == OurPool() && w == Before() && e == SendTo(OUTSIDE, Throws(true))
    ensures Mined(p, w, e) && Step(p, w, e).books == w.books
    ensures Free(Step(p, w, e).tokens, OMNIBUS) == 0 && !Exact(p, Step(p, w, e))
  {
    BackedBefore();
    LostOutside(p, w, e);
    LosingTheReply(p, w, e);
  }

  /** For every such transfer: the books stay, the tokens move. */
  lemma LosingTheReply(p: Pool, w: World, e: Event)
    requires Backed(p, w) && Exact(p, w)
    requires e.Outbound? && Mined(p, w, e) && !Succeeded(p, w, e) && Payee(p, w, e) != p.omnibus && Size(p, w, e) > 0
    ensures Parts(p, w, e) && DriftOmnibus(p, w, e) + Size(p, w, e) == 0
    ensures Step(p, w, e).books == w.books && Step(p, w, e).tokens == Asked(p, w, e).value && !Exact(p, Step(p, w, e))
  {
    StepExactIff(p, w, e);
  }

  /* ---- a rollback claimed as a deposit ---- */

  const HELD := OpId("hold")

  /** Alice has a hundred on hold, and the escrow wallet holds them. */
  function OnHold(): World {
    World(Ledger(map[ESCROW := 100], map[], 100), Books(map[], map[HELD := Reserve(ALICE, 100)]), [], {}, 0, 0)
  }

  lemma HundredLocked(books: Books)
    requires books == Books(map[], map[HELD := Reserve(ALICE, 100)])
    ensures Locked(books) == 100 && Owned(books) == 0
  {
    TotalSet<OpId, Reserve>(map[], LockedAmount, HELD, Reserve(ALICE, 100));
  }

  lemma BackedOnHold(p: Pool, w: World)
    requires p.omnibus == OMNIBUS && p.env.escrow == ESCROW && w == OnHold()
    ensures Backed(p, w) && Claims(w) == 100
  {
    HundredLocked(w.books);
    NoneWaiting(p, w);
    assert OMNIBUS.text[3] != ESCROW.text[3];
    HundredBacks(p, w);
  }

  lemma NoneWaiting(p: Pool, w: World)
    requires w.receipts == []
    ensures Waiting(p, w) == 0
  {
  }

  lemma HundredBacks(p: Pool, w: World)
    requires p.omnibus != p.env.escrow && w.tokens.free == map[p.env.escrow := 100] && Locked(w.books) == 100 && Owned(w.books) == 0
    requires Waiting(p, w) == 0 && w.credited == {} && w.gapOmnibus == w.gapEscrow == 0
    ensures Backed(p, w)
  {
  }

  /** Any pool with these two wallets and this token, on whose quantities we agree. */
  predicate IsOurs(p: Pool) {
    p.omnibus == OMNIBUS && p.env.escrow == ESCROW && p.rec.contract == TOKEN && p.rec.decimals == 0 && p.read("100") == Ok(100)
  }

  lemma RollsBack(p: Pool, w: World, e: Event)
    requires IsOurs(p) && w == OnHold() && e == PoolRollback(HELD, "100", Answers, PaidReceipt(ESCROW, OMNIBUS))
    ensures PaysThePool(p, w, e, 0) && Size(p, w, e) == 100
  {
    assert HeldAs(p, w.books, HELD, "100");
    assert ESCROW.text[3] != OMNIBUS.text[3];
    ShowsOne(p, ESCROW, OMNIBUS);
  }

  /** The hold is rolled back, and the rollback's transaction is then claimed for
      Bob: Alice and Bob can claim a hundred each, and there are a hundred. */
  lemma RollbackIsClaimed(p: Pool, w: World, rollback: Event, claim: Event, paid: World, claimed: World)
    requires IsOurs(p) && w == OnHold() && rollback == PoolRollback(HELD, "100", Answers, PaidReceipt(ESCROW, OMNIBUS))
    requires claim == Inbound(0, Investor("bob"), FormatUnits(100, 0), NotRequired)
    requires paid == Step(p, w, rollback) && claimed == Step(p, paid, claim)
    ensures Verified(p, paid, claim)
    ensures Claims(claimed) == 200 && Free(claimed.tokens, OMNIBUS) + Free(claimed.tokens, ESCROW) == 100
  {
    BackedOnHold(p, w);
    RollsBack(p, w, rollback);
    RollbackPaid(p, w, rollback);
    ClaimedForBob(p, w, rollback, claim, paid, claimed);
  }

  /** Claiming the pool's own payment adds its size to the claims and no token. */
  lemma ClaimedForBob(p: Pool, w: World, rollback: Event, claim: Event, paid: World, claimed: World)
    requires Backed(p, w) && PaysThePool(p, w, rollback, 0)
    requires claim.Inbound? && claim.tx == |w.receipts| && Reached(claim.finality)
    requires claim.expected == FormatUnits(Size(p, w, rollback), p.rec.decimals)
    requires paid == Step(p, w, rollback) && claimed == Step(p, paid, claim)
    ensures Verified(p, paid, claim)
    ensures Claims(claimed) == Claims(w) + Size(p, w, rollback)
    ensures claimed.tokens == paid.tokens
  {
    OwnTransferIsCredited(p, w, rollback, 0, claim);
    ClaimLeavesTokens(p, paid, claim);
  }

  lemma ClaimLeavesTokens(p: Pool, w: World, claim: Event)
    requires claim.Inbound?
    ensures Step(p, w, claim).tokens == w.tokens
  {
  }

  lemma RollbackPaid(p: Pool, w: World, e: Event)
    requires IsOurs(p) && w == OnHold() && e == PoolRollback(HELD, "100", Answers, PaidReceipt(ESCROW, OMNIBUS))
    requires PaysThePool(p, w, e, 0)
    ensures Free(Step(p, w, e).tokens, OMNIBUS) == 100 && Free(Step(p, w, e).tokens, ESCROW) == 0
  {
    RollbackAsks(p, w, e);
    assert ESCROW.text[3] != OMNIBUS.text[3];
  }
}
