/** Whose tokens they are: what each operation moves in the pooled wallets, and
    what each event does to the claim of each single investor. */
module OmnibusClaims {
  import opened Wrappers
  import opened Chain
  import opened Amounts
  import opened TokenStandards
  import opened Custody
  import opened Omnibus
  import opened OmnibusBacking
  import opened Totals

  /* ---- on the chain ---- */

  /** `n` tokens have gone from one wallet to another, and nothing else has. */
  ghost predicate Moved(l: Ledger, l': Ledger, from: Address, to: Address, n: int) {
    && l'.supply == l.supply && l'.reserved == l.reserved
    && forall who :: Free(l', who) == Free(l, who) - (if who == from then n else 0) + (if who == to then n else 0)
  }

  lemma TransferMoves(l: Ledger, from: Address, to: Address, n: int)
    ensures StdTransfer(l, from, to, n).Ok? ==> Moved(l, StdTransfer(l, from, to, n).value, from, to, n)
  {
  }

  /** Where tokens go: out to where the destination is paid; into escrow; back to
      the pool for a local investor -- whose finId is mapped to an address -- and
      otherwise to the address the instruction carries; back to the pool. */
  lemma PooledMoves(p: Pool, l: Ledger, to: Destination, quantity: string, payee: Address)
    ensures var out := OutboundTransfer(p.env, p.omnibus, l, EscrowTransfer, p.read, to, quantity);
            && (out.Ok? && PaidAt(p.env, to, payee) ==> Moved(l, out.value, p.omnibus, payee, p.read(quantity).value))
            && (out.Ok? ==> exists a :: PaidAt(p.env, to, a))
    ensures var hold := HoldPooled(p.env, p.omnibus, l, EscrowTransfer, p.read, quantity);
            hold.Ok? ==> Moved(l, hold.value, p.omnibus, p.env.escrow, p.read(quantity).value)
    ensures var release := ReleasePooled(p.env, p.omnibus, l, EscrowTransfer, p.read, to, quantity);
            release.Ok? ==>
              if to.finId in p.env.accounts && p.env.accounts[to.finId].text != "" then
                Moved(l, release.value, p.env.escrow, p.omnibus, p.read(quantity).value)
              else
                && (Carries(to.account, p.env.chainId, payee) ==> Moved(l, release.value, p.env.escrow, payee, p.read(quantity).value))
                && (exists a :: Carries(to.account, p.env.chainId, a) && a.text != "")
    ensures var rollback := RollbackPooled(p.env, p.omnibus, l, EscrowTransfer, p.read, quantity);
            rollback.Ok? ==> Moved(l, rollback.value, p.env.escrow, p.omnibus, p.read(quantity).value)
  {
    if p.read(quantity).Ok? {
      var n := p.read(quantity).value;
      TransferMoves(l, p.omnibus, payee, n);
      TransferMoves(l, p.omnibus, p.env.escrow, n);
      TransferMoves(l, p.env.escrow, payee, n);
      TransferMoves(l, p.env.escrow, p.omnibus, n);
      PooledPayees(p, l, to, quantity, payee);
    }
  }

  lemma PooledPayees(p: Pool, l: Ledger, to: Destination, quantity: string, payee: Address)
    requires p.read(quantity).Ok?
    ensures var out := OutboundTransfer(p.env, p.omnibus, l, EscrowTransfer, p.read, to, quantity);
            && (PaidAt(p.env, to, payee) ==> out == StdTransfer(l, p.omnibus, payee, p.read(quantity).value))
            && (out.Ok? ==> exists a :: PaidAt(p.env, to, a))
    ensures var release := ReleasePooled(p.env, p.omnibus, l, EscrowTransfer, p.read, to, quantity);
            release.Ok? && !(to.finId in p.env.accounts && p.env.accounts[to.finId].text != "") ==>
              && (Carries(to.account, p.env.chainId, payee) ==> release == StdTransfer(l, p.env.escrow, payee, p.read(quantity).value))
              && (exists a :: Carries(to.account, p.env.chainId, a) && a.text != "")
  {
  }

  /* ---- in the internal ledger ---- */

  function OwnedBy(who: Investor): Reserve -> nat { (r: Reserve) => if r.owner == who then r.amount else 0 }

  /** What an investor can claim: available, or locked for an operation of theirs. */
  ghost function Claim(b: Books, who: Investor): nat { Available(b, who) + Total(b.locked, OwnedBy(who)) }

  /** How an event changes an investor's claim: payments between investors move
      it, holds and rollbacks leave it, what leaves is taken from its owner, a
      verified deposit is credited, and what the caller is not told of changes
      nothing. */
  function ClaimChange(p: Pool, w: World, e: Event, who: Investor): int {
    match e
    case Internal(payer, payee, n) => If(Available(w.books, payer) >= n, If(who == payee, n) - If(who == payer, n))
    case Outbound(payer, _, _, _, _) => if Succeeded(p, w, e) then -If(who == payer, Size(p, w, e)) else 0
    case PoolHold(_, _, _, _, _) => 0
    case PoolRelease(id, to, _, _, _) =>
      if Succeeded(p, w, e) then
        If(Local(p.env, to.finId) && who.finId == to.finId, Size(p, w, e)) - If(who == w.books.locked[id].owner, Size(p, w, e))
      else 0
    case PoolRollback(_, _, _, _) => 0
    case Deliver(_, _) => 0
    case Inbound(_, payee, _, _) => if Verified(p, w, e) then If(who == payee, Credited(p, w, e)) else 0
  }

  lemma LockedSet(b: Books, id: OpId, r: Reserve, who: Investor)
    requires id !in b.locked
    ensures Total(b.locked[id := r], OwnedBy(who)) == Total(b.locked, OwnedBy(who)) + If(r.owner == who, r.amount)
  {
    TotalSet(b.locked, OwnedBy(who), id, r);
  }

  lemma LockedWithout(b: Books, id: OpId, who: Investor)
    requires id in b.locked
    ensures Total(b.locked - {id}, OwnedBy(who)) == Total(b.locked, OwnedBy(who)) - If(b.locked[id].owner == who, b.locked[id].amount)
  {
    TotalWithout(b.locked, OwnedBy(who), id);
  }

  lemma HoldKeepsClaims(p: Pool, w: World, e: Event, who: Investor)
    requires e.PoolHold?
    ensures Claim(Step(p, w, e).books, who) == Claim(w.books, who)
  {
    if Succeeded(p, w, e) {
      LockedSet(w.books, e.id, Reserve(e.payer, Size(p, w, e)), who);
    }
  }

  lemma RollbackKeepsClaims(p: Pool, w: World, e: Event, who: Investor)
    requires e.PoolRollback?
    ensures Claim(Step(p, w, e).books, who) == Claim(w.books, who)
  {
    if Succeeded(p, w, e) {
      LockedWithout(w.books, e.id, who);
    }
  }

  lemma ReleaseMovesClaims(p: Pool, w: World, e: Event, who: Investor)
    requires e.PoolRelease?
    ensures Claim(Step(p, w, e).books, who) == Claim(w.books, who) + ClaimChange(p, w, e, who)
  {
    if Succeeded(p, w, e) {
      LockedWithout(w.books, e.id, who);
    }
  }

  lemma OutboundTakesClaims(p: Pool, w: World, e: Event, who: Investor)
    requires e.Outbound?
    ensures Claim(Step(p, w, e).books, who) == Claim(w.books, who) + ClaimChange(p, w, e, who)
  {
  }

  /** Every investor's claim changes by what the event says and nobody else's. */
  lemma ClaimsChange(p: Pool, w: World, e: Event, who: Investor)
    ensures Claim(Step(p, w, e).books, who) == Claim(w.books, who) + ClaimChange(p, w, e, who)
  {
    match e {
      case PoolHold(_, _, _, _, _) => HoldKeepsClaims(p, w, e, who);
      case PoolRollback(_, _, _, _) => RollbackKeepsClaims(p, w, e, who);
      case PoolRelease(_, _, _, _, _) => ReleaseMovesClaims(p, w, e, who);
      case Outbound(_, _, _, _, _) => OutboundTakesClaims(p, w, e, who);
      case Internal(_, _, _) =>
      case Deliver(_, _) =>
      case Inbound(_, _, _, _) =>
    }
  }

  function Changes(p: Pool, w: World, events: seq<Event>, who: Investor): int
    decreases |events|
  {
    if events == [] then 0 else
    Changes(p, w, events[..|events| - 1], who) + ClaimChange(p, Run(p, w, events[..|events| - 1]), events[|events| - 1], who)
  }

  /** Over every run an investor's claim is what it was plus what was paid to
      them, less what they paid out -- holds and rollbacks in between or not. */
  lemma {:induction false} ClaimsOverRuns(p: Pool, w: World, events: seq<Event>, who: Investor)
    ensures Claim(Run(p, w, events).books, who) == Claim(w.books, who) + Changes(p, w, events, who)
    decreases |events|
  {
    if events != [] {
      ClaimsOverRuns(p, w, events[..|events| - 1], who);
      ClaimsChange(p, Run(p, w, events[..|events| - 1]), events[|events| - 1], who);
    }
  }
}
