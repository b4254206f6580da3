/** What a claim of an inbound transfer is credited for, against what is due on it
    (omnibus-delegate.ts:117-179): the delegate compares the amount with the first
    log that looks like a transfer to the omnibus wallet. It never asks which
    contract emitted that log, whom the tokens came from, or whether the
    transaction has been claimed before. */
module OmnibusInbound {
  import opened Wrappers
  import opened Chain
  import opened Amounts
  import opened TokenStandards
  import opened Custody
  import opened Omnibus
  import opened OmnibusBacking

  /** Up to the first matching log nothing counts, and from there on it does. */
  lemma {:induction false} ArrivedFrom(p: Pool, logs: seq<Log>, to: Address, i: nat)
    requires FirstAt(logs, to, i)
    ensures Arrived(p, logs, to) == (if FromOutside(p, logs[i]) then logs[i].data else 0) + Arrived(p, logs[i + 1..], to)
  {
    if i > 0 {
      var rest := logs[1..];
      assert !IsTransferTo(logs[0], to);
      assert FirstAt(rest, to, i - 1) by {
        assert forall j :: 0 <= j < i ==> rest[j] == logs[j + 1];
      }
      ArrivedFrom(p, rest, to, i - 1);
      assert rest[i..] == logs[i + 1..];
    }
  }

  function WithAmount(logs: seq<Log>, i: nat, n: nat): seq<Log>
    requires i < |logs|
  {
    logs[i := logs[i].(data := n)]
  }

  /** What is due on a claim if the log believed shows `n`. */
  function DueWith(p: Pool, logs: seq<Log>, i: nat, n: nat, claimed: bool): nat
    requires i < |logs|
  {
    if claimed then 0 else Arrived(p, WithAmount(logs, i, n), p.omnibus)
  }

  lemma DueWithIs(p: Pool, logs: seq<Log>, i: nat, n: nat, claimed: bool)
    requires FirstAt(logs, p.omnibus, i)
    ensures FirstAt(WithAmount(logs, i, n), p.omnibus, i)
    ensures DueWith(p, logs, i, n, claimed)
         == if claimed then 0 else (if FromOutside(p, logs[i]) then n else 0) + Arrived(p, logs[i + 1..], p.omnibus)
  {
    var other := WithAmount(logs, i, n);
    ArrivedFrom(p, other, p.omnibus, i);
    assert other[i + 1..] == logs[i + 1..];
  }

  /** Whatever amount the log believed may show: never more is credited than is due
      if and only if the transaction has not been credited before, the asset's
      contract emitted the log, and its `from` is no wallet of the pool. */
  lemma CreditIsCoveredIff(p: Pool, logs: seq<Log>, i: nat, claimed: bool)
    requires FirstAt(logs, p.omnibus, i)
    ensures (forall n: nat :: n <= DueWith(p, logs, i, n, claimed)) <==> !claimed && FromOutside(p, logs[i])
  {
    var more := Arrived(p, logs[i + 1..], p.omnibus) + 1;
    DueWithIs(p, logs, i, more, claimed);
    assert !(!claimed && FromOutside(p, logs[i])) ==> DueWith(p, logs, i, more, claimed) < more;
    forall n: nat | !claimed && FromOutside(p, logs[i]) ensures n <= DueWith(p, logs, i, n, claimed) {
      DueWithIs(p, logs, i, n, claimed);
    }
  }

  /** And exactly what is due is credited if and only if, besides, the transaction
      brought nothing else to the omnibus wallet. */
  lemma CreditIsWhatArrivedIff(p: Pool, logs: seq<Log>, i: nat, claimed: bool)
    requires FirstAt(logs, p.omnibus, i)
    ensures (forall n: nat :: n == DueWith(p, logs, i, n, claimed))
       <==> !claimed && FromOutside(p, logs[i]) && Arrived(p, logs[i + 1..], p.omnibus) == 0
  {
    var rest := Arrived(p, logs[i + 1..], p.omnibus);
    DueWithIs(p, logs, i, rest + 1, claimed);
    assert !(!claimed && FromOutside(p, logs[i]) && rest == 0) ==> DueWith(p, logs, i, rest + 1, claimed) != rest + 1;
    forall n: nat | !claimed && FromOutside(p, logs[i]) && rest == 0 ensures n == DueWith(p, logs, i, n, claimed) {
      DueWithIs(p, logs, i, n, claimed);
    }
  }

  /** On a verified claim: the credit is the amount the claimant named, read with
      the asset's decimals, and the gap changes by what was due less that. */
  lemma ClaimDrifts(p: Pool, w: World, e: Event)
    requires Backed(p, w) && Verified(p, w, e)
    ensures ParseUnits(e.expected, p.rec.decimals) == Ok(Credited(p, w, e))
    ensures e.tx in w.credited ==> Step(p, w, e).gapOmnibus == w.gapOmnibus - Credited(p, w, e)
    ensures e.tx !in w.credited ==>
      Step(p, w, e).gapOmnibus == w.gapOmnibus + Besides(p, w, e) - if FromOutside(p, Believed(p, w, e)) then 0 else Credited(p, w, e)
  {
    ArrivedFromFirst(p, w.receipts[e.tx].logs, p.omnibus);
    InboundBacked(p, w, e);
  }

  /* ---- a foreign token ---- */

  /** A call to the asset's contract during which another token logs a transfer of
      `n` to the omnibus wallet: nothing of the asset arrives. */
  function ForeignReceipt(p: Pool, other: Address, n: nat): TxReceipt {
    TxReceipt(1, Some(p.rec.contract), 0, [TransferLog(other, other, p.omnibus, n)])
  }

  lemma ForeignLogIsFirst(p: Pool, other: Address, n: nat)
    ensures FirstAt(ForeignReceipt(p, other, n).logs, p.omnibus, 0)
  {
    OwnTopic(p.omnibus);
  }

  /** Claiming it is verified and credits `n` that never arrived. */
  lemma ForeignLogIsCredited(p: Pool, w: World, e: Event, other: Address, n: nat)
    requires Backed(p, w) && e.Inbound? && e.tx < |w.receipts| && w.receipts[e.tx] == ForeignReceipt(p, other, n)
    requires Lower(other) != Lower(p.rec.contract)
    requires e.expected == FormatUnits(n, p.rec.decimals) && Reached(e.finality)
    ensures Verified(p, w, e) && Due(p, w, e.tx) == 0
    ensures Step(p, w, e).gapOmnibus == w.gapOmnibus - n && Claims(Step(p, w, e)) == Claims(w) + n
  {
    ForeignLogIsFirst(p, other, n);
    ArrivedFrom(p, ForeignReceipt(p, other, n).logs, p.omnibus, 0);
    assert ForeignReceipt(p, other, n).logs[1..] == [];
    AcceptedByFirst(w.receipts[e.tx], e.finality, p.rec, p.omnibus, n, 0);
    InboundBacked(p, w, e);
  }

  /* ---- a transaction of the pool's own ---- */

  /** A rollback, or a release to an investor of ours: told of, and with nothing
      that looks like a transfer to the omnibus wallet before its own log. */
  ghost predicate PaysThePool(p: Pool, w: World, e: Event, i: nat) {
    && (e.PoolRollback? || (e.PoolRelease? && Local(p.env, e.to.finId)))
    && Succeeded(p, w, e) && i < |e.receipt.logs| && ShowsAt(p, e.receipt, Paid(p, w, e), i)
    && forall j :: 0 <= j < i ==> !IsTransferTo(e.receipt.logs[j], p.omnibus)
  }

  lemma OwnLogIsFirst(p: Pool, w: World, e: Event, i: nat)
    requires PaysThePool(p, w, e, i)
    ensures Payee(p, w, e) == p.omnibus && FirstAt(e.receipt.logs, p.omnibus, i) && e.receipt.logs[i].data == Size(p, w, e)
    ensures Step(p, w, e).receipts == w.receipts + [e.receipt]
  {
    if e.PoolRelease? {
      ReleaseAsks(p, w, e);
    }
    OwnTopic(p.omnibus);
  }

  /** Whatever such an operation: claimed as a deposit afterwards, it passes every
      check and credits its amount again. The pool was as well backed after the
      operation as before it; after the claim it is short by that amount. */
  lemma OwnTransferIsCredited(p: Pool, w: World, e: Event, i: nat, claim: Event)
    requires Backed(p, w) && PaysThePool(p, w, e, i)
    requires claim.Inbound? && claim.tx == |w.receipts| && Reached(claim.finality)
    requires claim.expected == FormatUnits(Size(p, w, e), p.rec.decimals)
    ensures var paid := Step(p, w, e);
            && Claims(paid) == Claims(w) && paid.gapOmnibus == w.gapOmnibus && Verified(p, paid, claim) && Due(p, paid, claim.tx) == 0
            && Claims(Step(p, paid, claim)) == Claims(w) + Size(p, w, e)
            && Step(p, paid, claim).gapOmnibus == w.gapOmnibus - Size(p, w, e)
  {
    OwnLogIsFirst(p, w, e, i);
    StaysBacked(p, w, e, i);
    ClaimOfOwn(p, Step(p, w, e), claim, e.receipt, Size(p, w, e), i);
    MinedBringsNothing(p, w, e);
    InboundBacked(p, Step(p, w, e), claim);
  }

  lemma StaysBacked(p: Pool, w: World, e: Event, i: nat)
    requires Backed(p, w) && PaysThePool(p, w, e, i)
    ensures Backed(p, Step(p, w, e)) && Claims(Step(p, w, e)) == Claims(w) && Step(p, w, e).gapOmnibus == w.gapOmnibus
  {
    if e.PoolRelease? {
      ReleaseAsks(p, w, e);
      ReleaseBacked(p, w, e);
      ReleaseDrifts(p, w, e);
    } else {
      RollbackBacked(p, w, e);
    }
  }

  lemma ClaimOfOwn(p: Pool, w: World, claim: Event, receipt: TxReceipt, n: nat, i: nat)
    requires claim.Inbound? && claim.tx < |w.receipts| && w.receipts[claim.tx] == receipt && Reached(claim.finality)
    requires claim.expected == FormatUnits(n, p.rec.decimals)
    requires receipt.status == 1 && receipt.to == Some(p.rec.contract) && FirstAt(receipt.logs, p.omnibus, i) && receipt.logs[i].data == n
    ensures Verified(p, w, claim) && Credited(p, w, claim) == n
  {
    AcceptedByFirst(receipt, claim.finality, p.rec, p.omnibus, n, i);
    FirstIsFirst(receipt.logs, p.omnibus);
  }

  /* ---- a second claim ---- */

  /** Whatever claim was verified is verified again, and credits its amount again
      with nothing due. */
  lemma ClaimedAgain(p: Pool, w: World, e: Event)
    requires Backed(p, w) && Verified(p, w, e)
    ensures var once := Step(p, w, e);
            && Verified(p, once, e) && Due(p, once, e.tx) == 0
            && Claims(Step(p, once, e)) == Claims(once) + Credited(p, w, e)
            && Step(p, once, e).gapOmnibus == once.gapOmnibus - Credited(p, w, e)
  {
    InboundBacked(p, w, e);
    InboundBacked(p, Step(p, w, e), e);
  }
}
