/** Both hold models keep the same books: under either, every disciplined run
    of the custody service is a run of one abstract ledger. */
module EscrowRefinement {
  import opened Wrappers
  import opened Chain
  import opened OperationContexts
  import opened TokenStandards
  import opened Custody
  import opened Totals
  import Intents

  /* ---- the abstract ledger ---- */

  /** Spendable tokens, open holds with their holders, and the total supply. */
  datatype Book = Book(available: map<Address, nat>, holds: map<OpId, Reservation>, supply: nat)

  datatype Entry =
    | Minted(to: Address, n: int)
    | Moved(from: Address, to: Address, n: int)
    | Burned(from: Address, n: int)
    | Locked(id: OpId, from: Address, n: int)
    | Settled(id: OpId, payee: Option<Address>)   // nobody: the held tokens are burned

  function Available(b: Book, who: Address): nat { if who in b.available then b.available[who] else 0 }

  function Credit(b: Book, who: Address, n: nat): Book { b.(available := b.available[who := Available(b, who) + n]) }

  function Debit(b: Book, who: Address, n: nat): Book
    requires n <= Available(b, who)
  {
    b.(available := b.available[who := Available(b, who) - n])
  }

  function Post(b: Book, e: Entry): Result<Book> {
    match e
    case Minted(to, n) => if n < 0 then Err(NEGATIVE) else Ok(Credit(b, to, n).(supply := b.supply + n))
    case Moved(from, to, n) =>
      if n < 0 then Err(NEGATIVE) else if Available(b, from) < n then Err(SHORT) else Ok(Credit(Debit(b, from, n), to, n))
    case Burned(from, n) =>
      if n < 0 then Err(NEGATIVE) else if Available(b, from) < n || b.supply < n then Err(SHORT)
      else Ok(Debit(b, from, n).(supply := b.supply - n))
    case Locked(id, from, n) =>
      if id in b.holds then Err(NO_RESERVATION)
      else if n < 0 then Err(NEGATIVE) else if Available(b, from) < n then Err(SHORT)
      else Ok(Debit(b, from, n).(holds := b.holds[id := Reservation(from, n)]))
    case Settled(id, payee) =>
      if id !in b.holds then Err(NO_RESERVATION) else
      var n, rest := b.holds[id].amount, b.(holds := b.holds - {id});
      if payee.Some? then Ok(Credit(rest, payee.value, n))
      else if b.supply < n then Err(SHORT) else Ok(rest.(supply := b.supply - n))
  }

  const Amount: Reservation -> nat := (r: Reservation) => r.amount
  const Same: nat -> nat := (n: nat) => n

  ghost function Held(holds: map<OpId, Reservation>): nat { Total(holds, Amount) }

  ghost function Spendable(b: Book): nat { Total(b.available, Same) }

  /** Nothing is created or lost but by minting and burning. */
  ghost predicate Conserved(b: Book) { b.supply == Spendable(b) + Held(b.holds) }

  /** Crediting and debiting change the sum by what they say. */
  lemma CreditAdds(b: Book, who: Address, n: nat)
    ensures Spendable(Credit(b, who, n)) == Spendable(b) + n
  {
    TotalSet<Address, nat>(b.available, Same, who, Available(b, who) + n);
  }

  lemma DebitTakes(b: Book, who: Address, n: nat)
    requires n <= Available(b, who)
    ensures Spendable(Debit(b, who, n)) == Spendable(b) - n
  {
    TotalSet<Address, nat>(b.available, Same, who, Available(b, who) - n);
  }

  lemma MoveConserves(b: Book, from: Address, to: Address, n: nat)
    requires n <= Available(b, from)
    ensures Spendable(Credit(Debit(b, from, n), to, n)) == Spendable(b)
  {
    DebitTakes(b, from, n);
    CreditAdds(Debit(b, from, n), to, n);
  }

  lemma PlainConserves(b: Book, e: Entry)
    requires Conserved(b) && Post(b, e).Ok? && (e.Minted? || e.Moved? || e.Burned?)
    ensures Conserved(Post(b, e).value)
  {
    if e.Minted? {
      CreditAdds(b, e.to, e.n);
    } else if e.Moved? {
      MoveConserves(b, e.from, e.to, e.n);
    } else {
      DebitTakes(b, e.from, e.n);
    }
  }

  lemma PostConserves(b: Book, e: Entry)
    requires Conserved(b) && Post(b, e).Ok?
    ensures Conserved(Post(b, e).value)
  {
    if e.Locked? {
      DebitTakes(b, e.from, e.n);
      TotalSet(b.holds, Amount, e.id, Reservation(e.from, e.n));
    } else if e.Settled? {
      TotalWithout(b.holds, Amount, e.id);
      if e.payee.Some? {
        CreditAdds(b.(holds := b.holds - {e.id}), e.payee.value, b.holds[e.id].amount);
      }
    } else {
      PlainConserves(b, e);
    }
  }

  /* ---- what the service's operations mean in the books ---- */

  function OpIdOf(op: Op): OpId {
    match op
    case Hold(_, _, _, operationId) => OpId(operationId)
    case Release(_, _, _, operationId) => OpId(operationId)
    case Rollback(_, _, operationId) => OpId(operationId)
    case Redeem(_, _, held) => OpId(held.GetOr(""))
    case Issue(_, _) => OpId("")
    case Transfer(_, _, _) => OpId("")
  }

  function EntryOf(act: Act, id: OpId): Entry {
    match act
    case Mint(to, n) => Minted(to, n)
    case Send(from, to, n) => Moved(from, to, n)
    case Burn(from, n) => Burned(from, n)
    case BurnHeld(_, _) => Settled(id, None)
    case Lock(from, n, _) => Locked(id, from, n)
    case Pay(to, _, _) => Settled(id, Some(to))
  }

  /** A disciplined act: investors are not the escrow wallet, an operation is
      held once, and settled once for the quantity that was held. */
  predicate DisciplinedAct(escrow: Address, b: Book, act: Act, id: OpId) {
    match act
    case Mint(to, _) => to != escrow
    case Send(from, to, _) => from != escrow && to != escrow
    case Burn(from, _) => from != escrow
    case BurnHeld(n, ctx) => id in b.holds && n == b.holds[id].amount && Key(ctx) == Some(id) && ctx.value.releaseType == Intents.RedeemIt
    case Lock(from, _, ctx) => from != escrow && id !in b.holds && Key(ctx) == Some(id)
    case Pay(to, n, ctx) => to != escrow && id in b.holds && n == b.holds[id].amount && Key(ctx) == Some(id) && ctx.value.releaseType == Intents.ReleaseIt
  }

  /** A ledger of either kind agrees with the books. Under escrow-transfer the
      escrow wallet holds exactly the open holds. */
  ghost predicate Agrees(model: HoldModel, escrow: Address, l: Ledger, b: Book) {
    && l.supply == b.supply
    && (forall who :: who != escrow ==> Free(l, who) == Available(b, who))
    && Available(b, escrow) == 0
    && match model
       case EscrowTransfer => Free(l, escrow) == Held(b.holds)
       case HolderReservation => Free(l, escrow) == 0 && l.reserved == b.holds
  }

  /** What Apply must do to agree with Post. */
  ghost predicate ActAgrees(model: HoldModel, escrow: Address, l: Ledger, b: Book, act: Act, id: OpId) {
    match Post(b, EntryOf(act, id))
    case Err(error) => Apply(model, escrow, l, act) == Err(error)
    case Ok(b') => Apply(model, escrow, l, act).Ok? && Agrees(model, escrow, Apply(model, escrow, l, act).value, b')
  }

  lemma MintAgrees(model: HoldModel, escrow: Address, l: Ledger, b: Book, act: Act, id: OpId)
    requires Agrees(model, escrow, l, b) && DisciplinedAct(escrow, b, act, id) && act.Mint?
    ensures ActAgrees(model, escrow, l, b, act, id)
  {
    if Post(b, EntryOf(act, id)).Ok? {
      var l', b' := Apply(model, escrow, l, act).value, Post(b, EntryOf(act, id)).value;
      forall who | who != escrow ensures Free(l', who) == Available(b', who) {
        assert Free(l, who) == Available(b, who);
      }
    }
  }

  lemma SendAgrees(model: HoldModel, escrow: Address, l: Ledger, b: Book, act: Act, id: OpId)
    requires Agrees(model, escrow, l, b) && DisciplinedAct(escrow, b, act, id) && act.Send?
    ensures ActAgrees(model, escrow, l, b, act, id)
  {
    if Post(b, EntryOf(act, id)).Ok? {
      var l', b' := Apply(model, escrow, l, act).value, Post(b, EntryOf(act, id)).value;
      forall who | who != escrow ensures Free(l', who) == Available(b', who) {
        assert Free(l, who) == Available(b, who);
      }
    }
  }

  lemma BurnAgrees(model: HoldModel, escrow: Address, l: Ledger, b: Book, act: Act, id: OpId)
    requires Agrees(model, escrow, l, b) && DisciplinedAct(escrow, b, act, id) && act.Burn?
    ensures ActAgrees(model, escrow, l, b, act, id)
  {
    if Post(b, EntryOf(act, id)).Ok? {
      var l', b' := Apply(model, escrow, l, act).value, Post(b, EntryOf(act, id)).value;
      forall who | who != escrow ensures Free(l', who) == Available(b', who) {
        assert Free(l, who) == Available(b, who);
      }
    }
  }

  lemma ReservationActAgrees(escrow: Address, l: Ledger, b: Book, act: Act, id: OpId)
    requires Agrees(HolderReservation, escrow, l, b) && DisciplinedAct(escrow, b, act, id)
    requires act.Lock? || act.Pay? || act.BurnHeld?
    ensures ActAgrees(HolderReservation, escrow, l, b, act, id)
  {
    if Post(b, EntryOf(act, id)).Ok? {
      var l', b' := Apply(HolderReservation, escrow, l, act).value, Post(b, EntryOf(act, id)).value;
      forall who | who != escrow ensures Free(l', who) == Available(b', who) {
        assert Free(l, who) == Available(b, who);
      }
    }
  }

  lemma EscrowLockAgrees(escrow: Address, l: Ledger, b: Book, act: Act, id: OpId)
    requires Agrees(EscrowTransfer, escrow, l, b) && DisciplinedAct(escrow, b, act, id) && act.Lock?
    ensures ActAgrees(EscrowTransfer, escrow, l, b, act, id)
  {
    if Post(b, EntryOf(act, id)).Ok? {
      TotalSet(b.holds, Amount, id, Reservation(act.from, act.amount));
      var l', b' := Apply(EscrowTransfer, escrow, l, act).value, Post(b, EntryOf(act, id)).value;
      forall who | who != escrow ensures Free(l', who) == Available(b', who) {
        assert Free(l, who) == Available(b, who);
      }
    }
  }

  lemma EscrowSettleAgrees(escrow: Address, l: Ledger, b: Book, act: Act, id: OpId)
    requires Agrees(EscrowTransfer, escrow, l, b) && DisciplinedAct(escrow, b, act, id) && (act.Pay? || act.BurnHeld?)
    ensures ActAgrees(EscrowTransfer, escrow, l, b, act, id)
  {
    TotalWithout(b.holds, Amount, id);
    if Post(b, EntryOf(act, id)).Ok? {
      var l', b' := Apply(EscrowTransfer, escrow, l, act).value, Post(b, EntryOf(act, id)).value;
      forall who | who != escrow ensures Free(l', who) == Available(b', who) {
        assert Free(l, who) == Available(b, who);
      }
    }
  }

  lemma ActRefines(model: HoldModel, escrow: Address, l: Ledger, b: Book, act: Act, id: OpId)
    requires Agrees(model, escrow, l, b) && DisciplinedAct(escrow, b, act, id)
    ensures ActAgrees(model, escrow, l, b, act, id)
  {
    if act.Mint? {
      MintAgrees(model, escrow, l, b, act, id);
    } else if act.Send? {
      SendAgrees(model, escrow, l, b, act, id);
    } else if act.Burn? {
      BurnAgrees(model, escrow, l, b, act, id);
    } else if model == HolderReservation {
      ReservationActAgrees(escrow, l, b, act, id);
    } else if act.Lock? {
      EscrowLockAgrees(escrow, l, b, act, id);
    } else {
      EscrowSettleAgrees(escrow, l, b, act, id);
    }
  }
}
