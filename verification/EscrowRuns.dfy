/** Whole runs of the custody service under either hold model, and what a hold
    followed by its settlement comes to. */
module EscrowRuns {
  import opened Wrappers
  import opened Chain
  import opened OperationContexts
  import opened TokenStandards
  import opened Custody
  import opened EscrowRefinement
  import Intents

  /** What names and quantities are looked up in, and the standard's hold model. */
  datatype Deployment = Deployment(env: Env, read: Reading, model: HoldModel)

  /* ---- discipline, as a caller can check it ---- */

  /** Each operation id is held while it is not held already, and settled while
      it is held, for the quantity held; holds and settlements come with an
      execution context; investors do not use the escrow wallet. */
  predicate Disciplined(env: Env, read: Reading, b: Book, c: Call) {
    var id := OpIdOf(c.op);
    match Decode(env, c, read)
    case Err(_) => true
    case Ok(act) =>
      match c.op
      case Issue(_, _) => act.to != env.escrow
      case Transfer(_, _, _) => act.from != env.escrow && act.to != env.escrow
      case Redeem(_, _, held) => if Given(held) then c.exCtx.Some? && HeldFor(b, id, act.amount) else act.from != env.escrow
      case Hold(_, _, _, _) => act.from != env.escrow && c.exCtx.Some? && id !in b.holds
      case Release(_, _, _, _) => act.to != env.escrow && c.exCtx.Some? && HeldFor(b, id, act.amount)
      case Rollback(_, _, _) => act.to != env.escrow && c.exCtx.Some? && HeldFor(b, id, act.amount)
  }

  predicate HeldFor(b: Book, id: OpId, amount: int) { id in b.holds && b.holds[id].amount == amount }

  lemma DisciplinedCall(env: Env, read: Reading, b: Book, c: Call)
    requires Disciplined(env, read, b, c) && Decode(env, c, read).Ok?
    ensures DisciplinedAct(env.escrow, b, Decode(env, c, read).value, OpIdOf(c.op))
  {
  }

  /* ---- one call, then many ---- */

  /** The abstract outcome: it does not depend on the model. What was mined is
      posted, whether or not the caller is told. */
  function Abstractly(env: Env, read: Reading, b: Book, c: Call): (Receipt, Book) {
    match Decode(env, c, read)
    case Err(error) => (Failed(error), b)
    case Ok(act) =>
      match Post(b, EntryOf(act, OpIdOf(c.op)))
      case Err(error) => (Failed(error), b)
      case Ok(b') =>
        match c.fate
        case Answers => (ReceiptOf(c.op), b')
        case Throws(mined) => (Failed(THROWN), if mined then b' else b)
  }

  lemma CallRefines(d: Deployment, l: Ledger, b: Book, c: Call)
    requires Agrees(d.model, d.env.escrow, l, b) && Disciplined(d.env, d.read, b, c)
    ensures var out := Perform(d.env, l, c, d.read, d.model);
            && out.receipt == Abstractly(d.env, d.read, b, c).0
            && Agrees(d.model, d.env.escrow, out.ledger, Abstractly(d.env, d.read, b, c).1)
  {
    if Decode(d.env, c, d.read).Ok? {
      var act := Decode(d.env, c, d.read).value;
      DisciplinedCall(d.env, d.read, b, c);
      ActRefines(d.model, d.env.escrow, l, b, act, OpIdOf(c.op));
    }
  }

  datatype Played<T> = Played(receipts: seq<Receipt>, state: T)

  function Play(d: Deployment, l: Ledger, calls: seq<Call>): Played<Ledger> {
    if calls == [] then Played([], l) else
    var before := Play(d, l, calls[..|calls| - 1]);
    var out := Perform(d.env, before.state, calls[|calls| - 1], d.read, d.model);
    Played(before.receipts + [out.receipt], out.ledger)
  }

  function PlayAbstractly(env: Env, read: Reading, b: Book, calls: seq<Call>): Played<Book> {
    if calls == [] then Played([], b) else
    var before := PlayAbstractly(env, read, b, calls[..|calls| - 1]);
    var out := Abstractly(env, read, before.state, calls[|calls| - 1]);
    Played(before.receipts + [out.0], out.1)
  }

  predicate DisciplinedRun(env: Env, read: Reading, b: Book, calls: seq<Call>) {
    calls == [] ||
    (DisciplinedRun(env, read, b, calls[..|calls| - 1])
     && Disciplined(env, read, PlayAbstractly(env, read, b, calls[..|calls| - 1]).state, calls[|calls| - 1]))
  }

  /** Under either model a disciplined run gives the receipts of the abstract
      ledger and ends in agreement with it. */
  lemma {:induction false} RunRefines(d: Deployment, l: Ledger, b: Book, calls: seq<Call>)
    requires Agrees(d.model, d.env.escrow, l, b) && DisciplinedRun(d.env, d.read, b, calls)
    ensures Play(d, l, calls).receipts == PlayAbstractly(d.env, d.read, b, calls).receipts
    ensures Agrees(d.model, d.env.escrow, Play(d, l, calls).state, PlayAbstractly(d.env, d.read, b, calls).state)
  {
    if calls != [] {
      var init := calls[..|calls| - 1];
      RunRefines(d, l, b, init);
      CallRefines(d, Play(d, l, init).state, PlayAbstractly(d.env, d.read, b, init).state, calls[|calls| - 1]);
    }
  }

  lemma {:induction false} RunConserves(env: Env, read: Reading, b: Book, calls: seq<Call>)
    requires Conserved(b)
    ensures Conserved(PlayAbstractly(env, read, b, calls).state)
  {
    if calls != [] {
      var init, c := calls[..|calls| - 1], calls[|calls| - 1];
      RunConserves(env, read, b, init);
      var before := PlayAbstractly(env, read, b, init).state;
      if Decode(env, c, read).Ok? && Post(before, EntryOf(Decode(env, c, read).value, OpIdOf(c.op))).Ok? {
        PostConserves(before, EntryOf(Decode(env, c, read).value, OpIdOf(c.op)));
      }
    }
  }

  const NO_BOOK := Book(map[], map[], 0)
  const NO_LEDGER := Ledger(map[], map[], 0)

  lemma StartAgrees(model: HoldModel, escrow: Address)
    ensures Agrees(model, escrow, NO_LEDGER, NO_BOOK) && Conserved(NO_BOOK)
  {
  }

  /** From an empty contract on: the two models answer every call alike and
      leave every investor the same spendable balance and the same supply; what
      one keeps in the escrow wallet is the sum of what the other keeps reserved. */
  lemma ModelsAgree(env: Env, read: Reading, calls: seq<Call>, who: Address)
    requires DisciplinedRun(env, read, NO_BOOK, calls)
    ensures var moved := Play(Deployment(env, read, EscrowTransfer), NO_LEDGER, calls);
            var reserved := Play(Deployment(env, read, HolderReservation), NO_LEDGER, calls);
            && moved.receipts == reserved.receipts
            && (who != env.escrow ==> Free(moved.state, who) == Free(reserved.state, who))
            && moved.state.supply == reserved.state.supply
            && Free(moved.state, env.escrow) == Held(reserved.state.reserved)
            && Free(reserved.state, env.escrow) == 0
  {
    StartAgrees(EscrowTransfer, env.escrow);
    StartAgrees(HolderReservation, env.escrow);
    RunRefines(Deployment(env, read, EscrowTransfer), NO_LEDGER, NO_BOOK, calls);
    RunRefines(Deployment(env, read, HolderReservation), NO_LEDGER, NO_BOOK, calls);
  }

  /** Under escrow-transfer the escrow wallet holds the open holds and nothing
      else, and with the investors' balances that makes the whole supply. */
  lemma EscrowHoldsOpenHolds(env: Env, read: Reading, calls: seq<Call>)
    requires DisciplinedRun(env, read, NO_BOOK, calls)
    ensures var moved := Play(Deployment(env, read, EscrowTransfer), NO_LEDGER, calls).state;
            var book := PlayAbstractly(env, read, NO_BOOK, calls).state;
            Free(moved, env.escrow) == Held(book.holds) && moved.supply == Spendable(book) + Free(moved, env.escrow)
  {
    StartAgrees(EscrowTransfer, env.escrow);
    RunRefines(Deployment(env, read, EscrowTransfer), NO_LEDGER, NO_BOOK, calls);
    RunConserves(env, read, NO_BOOK, calls);
  }

  /* ---- what the receipts tell ---- */

  /** The books of somebody who goes by the receipts. */
  function Told(env: Env, read: Reading, b: Book, c: Call): Book {
    var (receipt, b') := Abstractly(env, read, b, c);
    if receipt.Failed? then b else b'
  }

  /** The call was mined, the caller was not told, and it was not a call that
      changes nothing. */
  predicate LostEffect(env: Env, read: Reading, b: Book, c: Call) {
    && c.fate == Throws(true) && Decode(env, c, read).Ok?
    && var posted := Post(b, EntryOf(Decode(env, c, read).value, OpIdOf(c.op))); posted.Ok? && posted.value != b
  }

  /** A receipt tells what happened to the ledger exactly unless the reply to a
      call that was mined, and changed something, was lost. */
  lemma ReceiptTellsIff(env: Env, read: Reading, b: Book, c: Call)
    ensures Told(env, read, b, c) == Abstractly(env, read, b, c).1 <==> !LostEffect(env, read, b, c)
  {
  }

  function PlayTold(env: Env, read: Reading, b: Book, calls: seq<Call>): Book {
    if calls == [] then b else Told(env, read, PlayTold(env, read, b, calls[..|calls| - 1]), calls[|calls| - 1])
  }

  /** Over a whole run without such a loss the receipts alone give the books that
      the ledger of either model agrees with. */
  lemma {:induction false} ReceiptsTellTheLedger(d: Deployment, l: Ledger, b: Book, calls: seq<Call>)
    requires Agrees(d.model, d.env.escrow, l, b) && DisciplinedRun(d.env, d.read, b, calls)
    requires forall i :: 0 <= i < |calls| ==> !LostEffect(d.env, d.read, PlayAbstractly(d.env, d.read, b, calls[..i]).state, calls[i])
    ensures PlayTold(d.env, d.read, b, calls) == PlayAbstractly(d.env, d.read, b, calls).state
    ensures Agrees(d.model, d.env.escrow, Play(d, l, calls).state, PlayTold(d.env, d.read, b, calls))
  {
    RunRefines(d, l, b, calls);
    if calls != [] {
      var init := calls[..|calls| - 1];
      forall i | 0 <= i < |init|
        ensures !LostEffect(d.env, d.read, PlayAbstractly(d.env, d.read, b, init[..i]).state, init[i])
      {
        assert init[..i] == calls[..i] && init[i] == calls[i];
      }
      ReceiptsTellTheLedger(d, l, b, init);
      ReceiptTellsIff(d.env, d.read, PlayAbstractly(d.env, d.read, b, init).state, calls[|calls| - 1]);
    }
  }

  /** At every moment of a run the receipts so far give the books. */
  predicate AlwaysTold(env: Env, read: Reading, b: Book, calls: seq<Call>) {
    PlayTold(env, read, b, calls) == PlayAbstractly(env, read, b, calls).state
    && (calls == [] || AlwaysTold(env, read, b, calls[..|calls| - 1]))
  }

  predicate NothingLost(env: Env, read: Reading, b: Book, calls: seq<Call>) {
    calls == []
    || (NothingLost(env, read, b, calls[..|calls| - 1])
        && !LostEffect(env, read, PlayAbstractly(env, read, b, calls[..|calls| - 1]).state, calls[|calls| - 1]))
  }

  /** Whoever goes by the receipts knows the ledger throughout a run if and only if
      no reply to a call that was mined, and changed something, was lost. */
  lemma {:induction false} AlwaysToldIff(env: Env, read: Reading, b: Book, calls: seq<Call>)
    ensures AlwaysTold(env, read, b, calls) <==> NothingLost(env, read, b, calls)
  {
    if calls != [] {
      var init, last := calls[..|calls| - 1], calls[|calls| - 1];
      AlwaysToldIff(env, read, b, init);
      if AlwaysTold(env, read, b, init) {
        ToldNext(env, read, b, calls, init, last);
        ReceiptTellsIff(env, read, PlayAbstractly(env, read, b, init).state, last);
      }
    }
  }

  lemma ToldNext(env: Env, read: Reading, b: Book, calls: seq<Call>, init: seq<Call>, last: Call)
    requires calls == init + [last]
    ensures PlayTold(env, read, b, calls) == Told(env, read, PlayTold(env, read, b, init), last)
    ensures PlayAbstractly(env, read, b, calls).state == Abstractly(env, read, PlayAbstractly(env, read, b, init).state, last).1
  {
    assert calls[..|calls| - 1] == init;
  }

  /* ---- a hold and its settlement ---- */

  /** To every holder the two ledgers are the same. */
  ghost predicate SameTo(one: Ledger, two: Ledger) {
    (forall who :: Free(one, who) == Free(two, who)) && one.reserved == two.reserved && one.supply == two.supply
  }

  ghost predicate SameBooks(one: Book, two: Book) {
    (forall who :: Available(one, who) == Available(two, who)) && one.holds == two.holds && one.supply == two.supply
  }

  /** Ledgers that agree with the same books are the same, provided what was
      reserved in them is -- which escrow-transfer never touches. */
  lemma AgreeingLedgers(model: HoldModel, escrow: Address, one: Ledger, two: Ledger, b: Book, b': Book)
    requires Agrees(model, escrow, one, b) && Agrees(model, escrow, two, b') && SameBooks(b, b')
    requires model == EscrowTransfer ==> one.reserved == two.reserved
    ensures SameTo(one, two)
  {
    forall who ensures Free(one, who) == Free(two, who) {
      if who != escrow {
        assert Free(one, who) == Available(b, who) && Free(two, who) == Available(b', who);
      }
    }
  }

  lemma EscrowLeavesReservations(d: Deployment, l: Ledger, c: Call)
    requires d.model == EscrowTransfer
    ensures Perform(d.env, l, c, d.read, d.model).ledger.reserved == l.reserved
  {
    if Decode(d.env, c, d.read).Ok? {
      EscrowActLeavesReservations(d.env.escrow, l, Decode(d.env, c, d.read).value);
    }
  }

  lemma EscrowActLeavesReservations(escrow: Address, l: Ledger, act: Act)
    ensures Apply(EscrowTransfer, escrow, l, act).Ok? ==> Apply(EscrowTransfer, escrow, l, act).value.reserved == l.reserved
  {
  }

  /** The asset, execution context and signature the calls share. */
  datatype Context = Context(asset: Intents.Asset, signature: Option<Intents.Template>, exCtx: ExecutionContext)

  function CallIn(ctx: Context, op: Op): Call { Call(op, ctx.asset, ctx.signature, Some(ctx.exCtx), Answers) }

  function After(d: Deployment, l: Ledger, ctx: Context, op: Op): Ledger { Perform(d.env, l, CallIn(ctx, op), d.read, d.model).ledger }

  predicate Succeeds(d: Deployment, l: Ledger, ctx: Context, op: Op) { !Perform(d.env, l, CallIn(ctx, op), d.read, d.model).receipt.Failed? }

  /** The source's wallet signs for an address that is not the escrow wallet. */
  ghost predicate InvestorSource(env: Env, finId: string) { forall w :: SignedBy(env, finId, w) ==> w.signer != env.escrow }

  ghost predicate InvestorDestination(env: Env, d: Destination) { forall to :: PaidAt(env, d, to) ==> to != env.escrow }

  /** Somebody signs for a source, and a destination is paid somewhere. */
  ghost predicate Signed(env: Env, finId: string) { exists w :: SignedBy(env, finId, w) }

  ghost predicate Payable(env: Env, d: Destination) { exists to :: PaidAt(env, d, to) }

  function HeldBook(b: Book, id: OpId, from: Address, n: nat): Book
    requires n <= Available(b, from)
  {
    EscrowRefinement.Debit(b, from, n).(holds := b.holds[id := Reservation(from, n)])
  }

  lemma HoldAbstractly(env: Env, read: Reading, b: Book, ctx: Context, hold: Op)
    requires hold.Hold? && OpIdOf(hold) !in b.holds
    ensures var from, n, out := ResolveSourceWallet(env, hold.source.finId), read(hold.quantity), Abstractly(env, read, b, CallIn(ctx, hold));
            && (!out.0.Failed? <==> from.Ok? && n.Ok? && 0 <= n.value <= Available(b, from.value.signer))
            && (!out.0.Failed? ==> out.1 == HeldBook(b, OpIdOf(hold), from.value.signer, n.value))
  {
  }

  lemma HoldDisciplined(env: Env, read: Reading, b: Book, ctx: Context, hold: Op)
    requires hold.Hold? && OpIdOf(hold) !in b.holds && InvestorSource(env, hold.source.finId)
    ensures Disciplined(env, read, b, CallIn(ctx, hold))
  {
  }

  /** A hold goes through exactly if somebody signs for the source and has the
      quantity, and then sets it aside for them. */
  lemma HoldBooks(d: Deployment, l: Ledger, b: Book, ctx: Context, hold: Op, from: SourceWallet)
    requires Agrees(d.model, d.env.escrow, l, b) && hold.Hold? && OpIdOf(hold) !in b.holds && InvestorSource(d.env, hold.source.finId)
    requires SignedBy(d.env, hold.source.finId, from)
    ensures var n := d.read(hold.quantity);
            && (Succeeds(d, l, ctx, hold) <==> n.Ok? && 0 <= n.value <= Available(b, from.signer))
            && (Succeeds(d, l, ctx, hold) ==>
                  Agrees(d.model, d.env.escrow, After(d, l, ctx, hold), HeldBook(b, OpIdOf(hold), from.signer, n.value)))
  {
    HoldAbstractly(d.env, d.read, b, ctx, hold);
    HoldDisciplined(d.env, d.read, b, ctx, hold);
    CallRefines(d, l, b, CallIn(ctx, hold));
  }

  /** Whoever nobody signs for can neither hold, transfer nor redeem directly, and
      whoever is paid nowhere cannot be issued, sent or released anything. */
  lemma UnresolvedChangesNothing(d: Deployment, l: Ledger, ctx: Context, op: Op)
    requires || ((op.Hold? || op.Transfer? || (op.Redeem? && !Given(op.held))) && !Signed(d.env, op.source.finId))
             || (op.Issue? && !Payable(d.env, op.destination))
             || ((op.Transfer? || op.Release?) && !Payable(d.env, op.to))
             || (op.Rollback? && op.source.finId !in d.env.accounts)
    ensures !Succeeds(d, l, ctx, op) && After(d, l, ctx, op) == l
  {
  }

  lemma SettledBooks(b: Book, id: OpId, from: Address, n: nat, payee: Address)
    requires n <= Available(b, from) && id !in b.holds
    ensures Post(HeldBook(b, id, from, n), Settled(id, Some(payee))) == Post(b, Moved(from, payee, n))
    ensures b.supply >= n ==> Post(HeldBook(b, id, from, n), Settled(id, None)) == Post(b, Burned(from, n))
  {
    assert b.holds[id := Reservation(from, n)] - {id} == b.holds;
  }

  /** Settling that hold for its quantity leaves the books of a direct move to
      where the release's destination is paid, or, rolling back, to where the
      source is mapped. */
  lemma SettleBooks(d: Deployment, l: Ledger, b: Book, ctx: Context, settle: Op, from: Address, n: nat, payee: Address)
    requires n <= Available(b, from) && OpIdOf(settle) !in b.holds && payee != d.env.escrow
    requires Agrees(d.model, d.env.escrow, l, HeldBook(b, OpIdOf(settle), from, n))
    requires (settle.Release? && PaidAt(d.env, settle.to, payee) && d.read(settle.quantity) == Ok(n))
          || (settle.Rollback? && settle.source.finId in d.env.accounts && d.env.accounts[settle.source.finId] == payee && d.read(settle.quantity) == Ok(n))
    ensures Succeeds(d, l, ctx, settle)
    ensures Agrees(d.model, d.env.escrow, After(d, l, ctx, settle), Post(b, Moved(from, payee, n)).value)
  {
    CallRefines(d, l, HeldBook(b, OpIdOf(settle), from, n), CallIn(ctx, settle));
    SettledBooks(b, OpIdOf(settle), from, n, payee);
  }

  lemma TransferDecodes(d: Deployment, b: Book, c: Call, from: SourceWallet, to: Address)
    requires c.op.Transfer? && SignedBy(d.env, c.op.source.finId, from) && PaidAt(d.env, c.op.to, to)
    ensures var n := d.read(c.op.quantity);
            Decode(d.env, c, d.read) == if n.Ok? then Ok(Send(from.signer, to, n.value)) else Err(n.error)
    ensures from.signer != d.env.escrow && to != d.env.escrow ==> Disciplined(d.env, d.read, b, c)
  {
  }

  /** A transfer moves the quantity from the address the source's wallet signs for
      to the one the destination is paid at, exactly if it is there. */
  lemma TransferBooks(d: Deployment, l: Ledger, b: Book, ctx: Context, transfer: Op, from: SourceWallet, to: Address)
    requires Agrees(d.model, d.env.escrow, l, b) && transfer.Transfer? && from.signer != d.env.escrow && to != d.env.escrow
    requires SignedBy(d.env, transfer.source.finId, from) && PaidAt(d.env, transfer.to, to)
    ensures var n := d.read(transfer.quantity);
            && (Succeeds(d, l, ctx, transfer) <==> n.Ok? && 0 <= n.value <= Available(b, from.signer))
            && (Succeeds(d, l, ctx, transfer) ==>
                  Agrees(d.model, d.env.escrow, After(d, l, ctx, transfer), Post(b, Moved(from.signer, to, n.value)).value))
  {
    TransferDecodes(d, b, CallIn(ctx, transfer), from, to);
    CallRefines(d, l, b, CallIn(ctx, transfer));
  }

  /** Issuing credits the destination, where it is paid, with the quantity and the
      supply with it. */
  lemma IssueBooks(d: Deployment, l: Ledger, b: Book, ctx: Context, issue: Op, to: Address)
    requires Agrees(d.model, d.env.escrow, l, b) && issue.Issue? && PaidAt(d.env, issue.destination, to) && to != d.env.escrow
    ensures var n := d.read(issue.quantity);
            && (Succeeds(d, l, ctx, issue) <==> d.env.issuer && n.Ok? && 0 <= n.value)
            && (Succeeds(d, l, ctx, issue) ==>
                  Agrees(d.model, d.env.escrow, After(d, l, ctx, issue), EscrowRefinement.Credit(b, to, n.value).(supply := b.supply + n.value)))
  {
    CallRefines(d, l, b, CallIn(ctx, issue));
  }

  /** Holding and then releasing is transferring: under either model the
      transfer goes through exactly if the hold and the release do, and leaves
      the same ledger. */
  lemma HoldThenReleaseIsTransfer(d: Deployment, l: Ledger, b: Book, ctx: Context, source: Source, to: Destination, quantity: string, id: string)
    requires Agrees(d.model, d.env.escrow, l, b) && OpId(id) !in b.holds
    requires InvestorSource(d.env, source.finId) && InvestorDestination(d.env, to)
    ensures var hold, release, transfer := Hold(source, Some(to), quantity, id), Release(source, to, quantity, id), Transfer(source, to, quantity);
            var held := After(d, l, ctx, hold);
            if !Succeeds(d, l, ctx, hold) then !Succeeds(d, l, ctx, transfer) && held == l
            else && (Succeeds(d, l, ctx, transfer) <==> Succeeds(d, held, ctx, release))
                 && (Succeeds(d, l, ctx, transfer) ==> SameTo(After(d, held, ctx, release), After(d, l, ctx, transfer)))
  {
    var hold, release, transfer := Hold(source, Some(to), quantity, id), Release(source, to, quantity, id), Transfer(source, to, quantity);
    if from :| SignedBy(d.env, source.finId, from) {
      HoldBooks(d, l, b, ctx, hold, from);
      if payee :| PaidAt(d.env, to, payee) {
        TransferBooks(d, l, b, ctx, transfer, from, payee);
        if Succeeds(d, l, ctx, hold) {
          var n := d.read(quantity).value;
          SettleBooks(d, After(d, l, ctx, hold), b, ctx, release, from.signer, n, payee);
          EndTheSame(d, l, ctx, hold, release, transfer, Post(b, Moved(from.signer, payee, n)).value);
        } else {
          FailedLeaves(d, l, ctx, hold);
        }
      } else {
        FailedLeaves(d, l, ctx, hold);
        UnresolvedChangesNothing(d, l, ctx, transfer);
        UnresolvedChangesNothing(d, After(d, l, ctx, hold), ctx, release);
      }
    } else {
      UnresolvedChangesNothing(d, l, ctx, hold);
      UnresolvedChangesNothing(d, l, ctx, transfer);
    }
  }

  /** What fails without a lost reply changes nothing. */
  lemma FailedLeaves(d: Deployment, l: Ledger, ctx: Context, op: Op)
    ensures !Succeeds(d, l, ctx, op) ==> After(d, l, ctx, op) == l
  {
  }

  /** Two ways that agree with the same books end in the same ledger. */
  lemma EndTheSame(d: Deployment, l: Ledger, ctx: Context, hold: Op, settle: Op, direct: Op, b: Book)
    requires Agrees(d.model, d.env.escrow, After(d, After(d, l, ctx, hold), ctx, settle), b)
    requires Agrees(d.model, d.env.escrow, After(d, l, ctx, direct), b)
    ensures SameTo(After(d, After(d, l, ctx, hold), ctx, settle), After(d, l, ctx, direct))
  {
    Untouched(d, l, ctx, hold, settle, direct);
    AgreeingLedgers(d.model, d.env.escrow, After(d, After(d, l, ctx, hold), ctx, settle), After(d, l, ctx, direct), b, b);
  }

  lemma Untouched(d: Deployment, l: Ledger, ctx: Context, hold: Op, settle: Op, direct: Op)
    ensures d.model == EscrowTransfer ==>
      After(d, After(d, l, ctx, hold), ctx, settle).reserved == l.reserved && After(d, l, ctx, direct).reserved == l.reserved
  {
    if d.model == EscrowTransfer {
      EscrowLeavesReservations(d, l, CallIn(ctx, hold));
      EscrowLeavesReservations(d, After(d, l, ctx, hold), CallIn(ctx, settle));
      EscrowLeavesReservations(d, l, CallIn(ctx, direct));
    }
  }

  lemma MovedToSelf(b: Book, who: Address, n: nat)
    requires n <= Available(b, who)
    ensures SameBooks(Post(b, Moved(who, who, n)).value, b)
  {
  }

  /** Holding and then rolling back changes nothing, if the mapping and the
      wallet name the same address for the source. */
  lemma HoldThenRollbackIsNothing(d: Deployment, l: Ledger, b: Book, ctx: Context, source: Source, to: Option<Destination>, quantity: string, id: string)
    requires Agrees(d.model, d.env.escrow, l, b) && OpId(id) !in b.holds && InvestorSource(d.env, source.finId)
    requires forall w :: SignedBy(d.env, source.finId, w) ==> source.finId in d.env.accounts && d.env.accounts[source.finId] == w.signer
    ensures var hold, rollback := Hold(source, to, quantity, id), Rollback(source, quantity, id);
            var held := After(d, l, ctx, hold);
            if !Succeeds(d, l, ctx, hold) then held == l
            else Succeeds(d, held, ctx, rollback) && SameTo(After(d, held, ctx, rollback), l)
  {
    var hold, rollback := Hold(source, to, quantity, id), Rollback(source, quantity, id);
    if w :| SignedBy(d.env, source.finId, w) {
      HoldBooks(d, l, b, ctx, hold, w);
      if Succeeds(d, l, ctx, hold) {
        var held, from, n := After(d, l, ctx, hold), w.signer, d.read(quantity).value;
        SettleBooks(d, held, b, ctx, rollback, from, n, from);
        Untouched(d, l, ctx, hold, rollback, rollback);
        MovedToSelf(b, from, n);
        AgreeingLedgers(d.model, d.env.escrow, After(d, held, ctx, rollback), l, Post(b, Moved(from, from, n)).value, b);
      }
    } else {
      UnresolvedChangesNothing(d, l, ctx, hold);
    }
  }

  lemma RedeemHeldBooks(d: Deployment, l: Ledger, b: Book, ctx: Context, redeem: Op, from: Address, n: nat)
    requires n <= Available(b, from) && n <= b.supply && redeem.Redeem? && Given(redeem.held) && OpIdOf(redeem) !in b.holds
    requires Agrees(d.model, d.env.escrow, l, HeldBook(b, OpIdOf(redeem), from, n)) && d.read(redeem.quantity) == Ok(n)
    ensures Succeeds(d, l, ctx, redeem)
    ensures Agrees(d.model, d.env.escrow, After(d, l, ctx, redeem), Post(b, Burned(from, n)).value)
  {
    CallRefines(d, l, HeldBook(b, OpIdOf(redeem), from, n), CallIn(ctx, redeem));
    SettledBooks(b, OpIdOf(redeem), from, n, from);
  }

  /** Redeeming without a hold burns the quantity at the source's own address. */
  lemma RedeemBooks(d: Deployment, l: Ledger, b: Book, ctx: Context, direct: Op, from: SourceWallet)
    requires Agrees(d.model, d.env.escrow, l, b) && Conserved(b) && direct.Redeem? && !Given(direct.held)
    requires SignedBy(d.env, direct.source.finId, from) && from.address != d.env.escrow
    ensures var n := d.read(direct.quantity);
            && (Succeeds(d, l, ctx, direct) <==> n.Ok? && 0 <= n.value <= Available(b, from.address))
            && (Succeeds(d, l, ctx, direct) ==>
                  Agrees(d.model, d.env.escrow, After(d, l, ctx, direct), Post(b, Burned(from.address, n.value)).value))
  {
    CallRefines(d, l, b, CallIn(ctx, direct));
    EnoughSupply(b, from.address);
  }

  /** Holding and then redeeming the hold is redeeming directly, if the wallet
      signs for the address it is kept under. */
  lemma HoldThenRedeemIsRedeem(d: Deployment, l: Ledger, b: Book, ctx: Context, source: Source, to: Option<Destination>, quantity: string, id: string)
    requires Agrees(d.model, d.env.escrow, l, b) && Conserved(b) && OpId(id) !in b.holds && id != "" && InvestorSource(d.env, source.finId)
    requires forall w :: SignedBy(d.env, source.finId, w) ==> w.address == w.signer
    ensures var hold, redeem, direct := Hold(source, to, quantity, id), Redeem(source, quantity, Some(id)), Redeem(source, quantity, None);
            var held := After(d, l, ctx, hold);
            && (Succeeds(d, l, ctx, hold) <==> Succeeds(d, l, ctx, direct))
            && (Succeeds(d, l, ctx, hold) ==>
                  Succeeds(d, held, ctx, redeem) && SameTo(After(d, held, ctx, redeem), After(d, l, ctx, direct)))
  {
    var hold, redeem, direct := Hold(source, to, quantity, id), Redeem(source, quantity, Some(id)), Redeem(source, quantity, None);
    if w :| SignedBy(d.env, source.finId, w) {
      HoldBooks(d, l, b, ctx, hold, w);
      RedeemBooks(d, l, b, ctx, direct, w);
      if Succeeds(d, l, ctx, hold) {
        var held, from, n := After(d, l, ctx, hold), w.signer, d.read(quantity).value;
        EnoughSupply(b, from);
        RedeemHeldBooks(d, held, b, ctx, redeem, from, n);
        Untouched(d, l, ctx, hold, redeem, direct);
        var b' := Post(b, Burned(from, n)).value;
        AgreeingLedgers(d.model, d.env.escrow, After(d, held, ctx, redeem), After(d, l, ctx, direct), b', b');
      }
    } else {
      UnresolvedChangesNothing(d, l, ctx, hold);
      UnresolvedChangesNothing(d, l, ctx, direct);
    }
  }

  /** What a lost reply does: the caller sees a failure, sends the transfer
      again, and the tokens have moved twice for one receipt. */
  lemma LostReplyMovesTwice(d: Deployment, l: Ledger, b: Book, ctx: Context, transfer: Op, from: SourceWallet, to: Address, n: nat)
    requires Agrees(d.model, d.env.escrow, l, b) && transfer.Transfer? && from.signer != d.env.escrow && to != d.env.escrow
    requires SignedBy(d.env, transfer.source.finId, from) && PaidAt(d.env, transfer.to, to) && d.read(transfer.quantity) == Ok(n)
    requires from.signer != to && n + n <= Available(b, from.signer)
    ensures var once := Perform(d.env, l, CallIn(ctx, transfer).(fate := Throws(true)), d.read, d.model);
            var twice := Perform(d.env, once.ledger, CallIn(ctx, transfer), d.read, d.model);
            && once.receipt == Failed(THROWN) && twice.receipt == ReceiptOf(transfer)
            && Free(twice.ledger, from.signer) == Free(l, from.signer) - n - n && Free(twice.ledger, to) == Free(l, to) + n + n
  {
    TransferMined(d, l, b, ctx, transfer, from, to, n, Throws(true));
    var b1, once := Post(b, Moved(from.signer, to, n)).value, Perform(d.env, l, CallIn(ctx, transfer).(fate := Throws(true)), d.read, d.model);
    TransferMined(d, once.ledger, b1, ctx, transfer, from, to, n, Answers);
    MovedTwice(b, from.signer, to, n);
  }

  lemma TransferMined(d: Deployment, l: Ledger, b: Book, ctx: Context, transfer: Op, from: SourceWallet, to: Address, n: nat, fate: Fate)
    requires Agrees(d.model, d.env.escrow, l, b) && transfer.Transfer? && fate != Throws(false)
    requires SignedBy(d.env, transfer.source.finId, from) && PaidAt(d.env, transfer.to, to) && d.read(transfer.quantity) == Ok(n)
    requires from.signer != d.env.escrow && to != d.env.escrow && n <= Available(b, from.signer)
    ensures var out := Perform(d.env, l, CallIn(ctx, transfer).(fate := fate), d.read, d.model);
            && out.receipt == (if fate.Answers? then ReceiptOf(transfer) else Failed(THROWN))
            && Agrees(d.model, d.env.escrow, out.ledger, Post(b, Moved(from.signer, to, n)).value)
  {
    TransferDecodes(d, b, CallIn(ctx, transfer).(fate := fate), from, to);
    CallRefines(d, l, b, CallIn(ctx, transfer).(fate := fate));
  }

  lemma MovedTwice(b: Book, from: Address, to: Address, n: nat)
    requires from != to && n + n <= Available(b, from)
    ensures var b1 := Post(b, Moved(from, to, n)).value;
            && Post(b1, Moved(from, to, n)).Ok?
            && Available(Post(b1, Moved(from, to, n)).value, from) == Available(b, from) - n - n
            && Available(Post(b1, Moved(from, to, n)).value, to) == Available(b, to) + n + n
  {
  }

  /** Why the execution context matters: without one a standard that reserves
      can neither hold nor settle, and one that moves tokens does not notice. */
  lemma ContextMatters(d: Deployment, l: Ledger, c: Call, exCtx: ExecutionContext)
    requires c.exCtx.None? && (c.op.Hold? || c.op.Release? || c.op.Rollback? || (c.op.Redeem? && Given(c.op.held)))
    ensures d.model == HolderReservation ==> Perform(d.env, l, c, d.read, d.model).receipt.Failed?
    ensures d.model == HolderReservation ==> Perform(d.env, l, c, d.read, d.model).ledger == l
    ensures d.model == EscrowTransfer ==>
      Perform(d.env, l, c, d.read, d.model) == Perform(d.env, l, c.(exCtx := Some(exCtx)), d.read, d.model)
  {
  }

  /** Nobody owns more than there is. */
  lemma EnoughSupply(b: Book, who: Address)
    requires Conserved(b)
    ensures Available(b, who) <= b.supply
  {
    DebitTakes(b, who, Available(b, who));
  }
}
