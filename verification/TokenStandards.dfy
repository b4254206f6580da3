/** Token standards: the registry that knows each standard's hold model
    (src/integrations/token-standards/registry.ts), and what a standard's
    operations do to its ledger under either model. */
module TokenStandards {
  import opened Wrappers
  import opened Chain
  import opened Intents
  import opened OperationContexts

  datatype HoldModel = EscrowTransfer | HolderReservation

  /* ---- the registry ---- */

  /** Standards are keyed by their upper-cased name; an implementation counts
      here by its hold model. */
  class TokenStandardRegistry {
    var standards: map<string, HoldModel>

    constructor ()
      ensures standards == map[]
    {
      standards := map[];
    }

    method Register(tokenStandard: string, holdModel: HoldModel) returns (r: Result<()>)
      modifies this
      ensures r.Ok? <==> Lookup(old(standards), tokenStandard).Err?
      ensures standards == AfterOne(old(standards), Registration(tokenStandard, holdModel))
    {
      var key := ToUpper(tokenStandard);
      if key in standards { return Err("Token standard is already registered"); }
      standards := standards[key := holdModel];
      return Ok(());
    }

    method HoldModelOf(tokenStandard: string) returns (r: Result<HoldModel>)
      ensures r == Lookup(standards, tokenStandard)
    {
      var key := ToUpper(tokenStandard);
      if key !in standards { return Err("Unknown token standard"); }
      return Ok(standards[key]);
    }

    method Has(tokenStandard: string) returns (has: bool)
      ensures has <==> Lookup(standards, tokenStandard).Ok?
    {
      return ToUpper(tokenStandard) in standards;
    }

    method Reset()
      modifies this
      ensures standards == map[]
    {
      standards := map[];
    }
  }

  function Lookup(standards: map<string, HoldModel>, tokenStandard: string): Result<HoldModel> {
    if ToUpper(tokenStandard) in standards then Ok(standards[ToUpper(tokenStandard)]) else Err("Unknown token standard")
  }

  datatype Registration = Registration(name: string, model: HoldModel)

  /** A name that is taken, up to case, stays with whoever took it. */
  function AfterOne(standards: map<string, HoldModel>, r: Registration): map<string, HoldModel> {
    if ToUpper(r.name) in standards then standards else standards[ToUpper(r.name) := r.model]
  }

  function AfterAll(registrations: seq<Registration>): map<string, HoldModel> {
    if registrations == [] then map[]
    else AfterOne(AfterAll(registrations[..|registrations| - 1]), registrations[|registrations| - 1])
  }

  predicate IsCalled(r: Registration, spelling: string) { ToUpper(r.name) == ToUpper(spelling) }

  /** However many standards were registered, refused ones included, under
      whatever spellings: a lookup answers if and only if some registration has
      the name up to case, and then with the model of the first such one. */
  lemma {:induction false} FirstRegistrationAnswers(registrations: seq<Registration>, spelling: string)
    ensures Lookup(AfterAll(registrations), spelling).Ok? <==> exists i :: 0 <= i < |registrations| && IsCalled(registrations[i], spelling)
    ensures forall i :: 0 <= i < |registrations| && IsCalled(registrations[i], spelling)
                        && (forall j :: 0 <= j < i ==> !IsCalled(registrations[j], spelling)) ==>
                          Lookup(AfterAll(registrations), spelling) == Ok(registrations[i].model)
  {
    if registrations != [] {
      var init := registrations[..|registrations| - 1];
      FirstRegistrationAnswers(init, spelling);
      assert registrations == init + [registrations[|init|]];
      assert forall i :: 0 <= i < |init| ==> registrations[i] == init[i];
    }
  }

  /* ---- one token contract ---- */

  datatype OpId = OpId(text: string)
  datatype Reservation = Reservation(holder: Address, amount: nat)

  /** `free` tokens can be spent by their owner; reserved ones stay on the
      holder's account until their reservation is settled. */
  datatype Ledger = Ledger(free: map<Address, nat>, reserved: map<OpId, Reservation>, supply: nat)

  function Free(l: Ledger, who: Address): nat { if who in l.free then l.free[who] else 0 }

  function SetFree(l: Ledger, who: Address, amount: nat): Ledger { l.(free := l.free[who := amount]) }

  const SHORT := "insufficient balance"
  const NEGATIVE := "value out of bounds"
  const NO_RESERVATION := "no such reservation"
  const ZERO_ADDRESS := Address("0x0000000000000000000000000000000000000000")

  function StdMint(l: Ledger, to: Address, amount: int): Result<Ledger> {
    if amount < 0 then Err(NEGATIVE) else Ok(SetFree(l, to, Free(l, to) + amount).(supply := l.supply + amount))
  }

  function StdTransfer(l: Ledger, from: Address, to: Address, amount: int): Result<Ledger> {
    if amount < 0 then Err(NEGATIVE)
    else if Free(l, from) < amount then Err(SHORT)
    else
      var debited := SetFree(l, from, Free(l, from) - amount);
      Ok(SetFree(debited, to, Free(debited, to) + amount))
  }

  function StdBurn(l: Ledger, from: Address, amount: int): Result<Ledger> {
    if amount < 0 then Err(NEGATIVE)
    else if Free(l, from) < amount || l.supply < amount then Err(SHORT)
    else Ok(SetFree(l, from, Free(l, from) - amount).(supply := l.supply - amount))
  }

  /** The reservation a context names. */
  function Key(ctx: Option<OperationContext>): Option<OpId> {
    if ctx.Some? && ctx.value.operationId.Some? then Some(OpId(ctx.value.operationId.value)) else None
  }

  /** hold(): move the tokens to the escrow wallet, or reserve them where they are. */
  function StdHold(model: HoldModel, l: Ledger, source: Address, escrow: Address, amount: int, ctx: Option<OperationContext>): Result<Ledger> {
    match model
    case EscrowTransfer => StdTransfer(l, source, escrow, amount)
    case HolderReservation =>
      if Key(ctx).None? || Key(ctx).value in l.reserved then Err(NO_RESERVATION)
      else if amount < 0 then Err(NEGATIVE)
      else if Free(l, source) < amount then Err(SHORT)
      else Ok(SetFree(l, source, Free(l, source) - amount)
                .(reserved := l.reserved[Key(ctx).value := Reservation(source, amount)]))
  }

  /** release(): pay out of the escrow wallet, or settle the reservation named --
      by burning it if the context says so. */
  function StdRelease(model: HoldModel, l: Ledger, escrow: Address, to: Address, amount: int, ctx: Option<OperationContext>): Result<Ledger> {
    match model
    case EscrowTransfer => StdTransfer(l, escrow, to, amount)
    case HolderReservation =>
      if Key(ctx).None? || Key(ctx).value !in l.reserved || l.reserved[Key(ctx).value].amount != amount then Err(NO_RESERVATION)
      else
        var settled := l.(reserved := l.reserved - {Key(ctx).value});
        if ctx.value.releaseType != RedeemIt then Ok(SetFree(settled, to, Free(settled, to) + amount))
        else if l.supply < amount then Err(SHORT)
        else Ok(settled.(supply := l.supply - amount))
  }

  /* ---- awaiting a standard ---- */

  /** What becomes of a call the standard accepts: it answers, or it throws --
      after its transaction was mined (the reply was lost) or without one. */
  datatype Fate = Answers | Throws(mined: bool)

  const THROWN := "thrown by the standard"

  /** The caller's side of an awaited call, and the ledger after it. */
  datatype Effect = Effect(result: Result<()>, ledger: Ledger)

  function Await(l: Ledger, accepted: Result<Ledger>, fate: Fate): Effect {
    match accepted
    case Err(error) => Effect(Err(error), l)
    case Ok(l') =>
      match fate
      case Answers => Effect(Ok(()), l')
      case Throws(mined) => Effect(Err(THROWN), if mined then l' else l)
  }

  /** The same over all contracts. */
  type Ledgers = map<Address, Ledger>

  function LedgerOf(ledgers: Ledgers, contract: Address): Ledger {
    if contract in ledgers then ledgers[contract] else Ledger(map[], map[], 0)
  }

  datatype Attempted = Attempted(result: Result<()>, ledgers: Ledgers)

  function AwaitOn(ledgers: Ledgers, contract: Address, accepted: Result<Ledger>, fate: Fate): Attempted {
    match accepted
    case Err(error) => Attempted(Err(error), ledgers)
    case Ok(l') =>
      match fate
      case Answers => Attempted(Ok(()), ledgers[contract := l'])
      case Throws(mined) => Attempted(Err(THROWN), if mined then ledgers[contract := l'] else ledgers)
  }

  lemma AwaitedOnItsContract(ledgers: Ledgers, contract: Address, accepted: Result<Ledger>, fate: Fate, other: Address)
    ensures var attempted, effect := AwaitOn(ledgers, contract, accepted, fate), Await(LedgerOf(ledgers, contract), accepted, fate);
            && attempted.result == effect.result && LedgerOf(attempted.ledgers, contract) == effect.ledger
            && (other != contract ==> LedgerOf(attempted.ledgers, other) == LedgerOf(ledgers, other))
  {
  }
}
