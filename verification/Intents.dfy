/** Decoding a signed intent into business details and checking a request
    against it (src/services/onchain/helpers.ts). */
module Intents {
  import opened Wrappers

  /* ---- the vocabulary of an operation (adapter-contract/src/types.ts) ---- */

  datatype LegType = AssetLeg | SettlementLeg
  datatype Phase = Initiate | Close
  datatype ReleaseType = ReleaseIt | RedeemIt
  datatype PrimaryType = PrimarySaleType | BuyingType | SellingType | RedemptionType
                       | TransferType | PrivateOfferType | LoanType | MoveType

  /* ---- the signed template ---- */

  datatype Asset = Asset(assetId: string, assetType: string)
  datatype EipTerm = EipTerm(assetId: string, assetType: Option<string>, amount: string)
  datatype LoanTerms = LoanTerms(borrowedMoneyAmount: string, returnedMoneyAmount: string)

  /** The EIP712 message of each intent; parties are finIds. */
  datatype Message =
    | PrimarySale(buyer: string, issuer: string, asset: EipTerm, settlement: EipTerm)
    | Buying(buyer: string, seller: string, asset: EipTerm, settlement: EipTerm)
    | Selling(buyer: string, seller: string, asset: EipTerm, settlement: EipTerm)
    | Redemption(seller: string, issuer: string, asset: EipTerm, settlement: EipTerm)
    | Transfer(buyer: string, seller: string, asset: EipTerm)
    | PrivateOffer(buyer: string, seller: string, asset: EipTerm, settlement: EipTerm)
    | Loan(borrower: string, lender: string, asset: EipTerm, settlement: EipTerm, loanTerms: LoanTerms)
    | Move(source: string, destination: string, asset: EipTerm)
    | Unsupported(primaryType: string, assetTerm: Option<EipTerm>, settlementTerm: Option<EipTerm>)

  datatype Template = HashList | EIP712(message: Message)

  /** `"asset" in message`, `"settlement" in message`. */
  function AssetTerm(m: Message): Option<EipTerm> {
    if m.Unsupported? then m.assetTerm else Some(m.asset)
  }

  function SettlementTerm(m: Message): Option<EipTerm> {
    if m.Unsupported? then m.settlementTerm
    else if m.Transfer? || m.Move? then None
    else Some(m.settlement)
  }

  /* ---- decoding ---- */

  predicate WellKnown(assetId: string) { assetId == "USD" || assetId == "USDC" }

  predicate OfMoney(assetType: string) { assetType == "fiat" || assetType == "cryptocurrency" }

  function CompareAssets(a: Asset, t: EipTerm): bool {
    var termType := t.assetType.GetOr("finp2p");
    if OfMoney(termType) && WellKnown(t.assetId) && (OfMoney(a.assetType) || a.assetType == "finp2p") && WellKnown(a.assetId) then
      true
    else
      t.assetId == a.assetId && termType == a.assetType
  }

  function DetectLeg(a: Asset, t: Template): Result<LegType> {
    if t.HashList? then Err("Unsupported signature template type")
    else if AssetTerm(t.message).Some? && CompareAssets(a, AssetTerm(t.message).value) then Ok(AssetLeg)
    else if SettlementTerm(t.message).Some? && CompareAssets(a, SettlementTerm(t.message).value) then Ok(SettlementLeg)
    else Err("Asset not found in EIP712 message")
  }

  function PrimaryTypeOf(m: Message): Result<PrimaryType> {
    match m
    case PrimarySale(_, _, _, _) => Ok(PrimarySaleType)
    case Buying(_, _, _, _) => Ok(BuyingType)
    case Selling(_, _, _, _) => Ok(SellingType)
    case Redemption(_, _, _, _) => Ok(RedemptionType)
    case Transfer(_, _, _) => Ok(TransferType)
    case PrivateOffer(_, _, _, _) => Ok(PrivateOfferType)
    case Loan(_, _, _, _, _) => Ok(LoanType)
    case Move(_, _, _) => Ok(MoveType)
    case Unsupported(_, _, _) => Err("Unsupported EIP712 primary type")
  }

  datatype Term = Term(assetId: string, assetType: string, amount: string)
  datatype Params = Params(leg: LegType, primaryType: PrimaryType, phase: Phase, operationId: Option<string>, releaseType: ReleaseType)
  datatype Details = Details(buyer: string, seller: string, asset: Term, settlement: Term, loan: LoanTerms, params: Params)

  function ToTerm(t: EipTerm): Term { Term(t.assetId, t.assetType.GetOr("finp2p"), t.amount) }

  const EMPTY_TERM := Term("", "", "")
  const EMPTY_LOAN := LoanTerms("", "")

  /** A destination that names nobody counts as no destination here. */
  predicate Names(destination: Option<string>) { destination.Some? && destination.value != "" }

  function ReleaseOrRedeem(destination: Option<string>): ReleaseType {
    if Names(destination) then ReleaseIt else RedeemIt
  }

  function ExtractBusinessDetails(a: Asset, destination: Option<string>, operationId: Option<string>, t: Template, sequence: int)
    : Result<Details>
  {
    if t.HashList? then Err("Unsupported signature template type") else
    var leg :- DetectLeg(a, t);
    var primaryType :- PrimaryTypeOf(t.message);
    match t.message
    case PrimarySale(buyer, issuer, asset, settlement) =>
      Ok(Details(buyer, issuer, ToTerm(asset), ToTerm(settlement), EMPTY_LOAN, Params(leg, primaryType, Initiate, operationId, ReleaseIt)))
    case Buying(buyer, seller, asset, settlement) =>
      Ok(Details(buyer, seller, ToTerm(asset), ToTerm(settlement), EMPTY_LOAN, Params(leg, primaryType, Initiate, operationId, ReleaseIt)))
    case Selling(buyer, seller, asset, settlement) =>
      Ok(Details(buyer, seller, ToTerm(asset), ToTerm(settlement), EMPTY_LOAN, Params(leg, primaryType, Initiate, operationId, ReleaseIt)))
    case Transfer(buyer, seller, asset) =>
      Ok(Details(buyer, seller, ToTerm(asset), EMPTY_TERM, EMPTY_LOAN,
                 Params(leg, primaryType, Initiate, operationId, ReleaseOrRedeem(destination))))
    case Redemption(seller, issuer, asset, settlement) =>
      Ok(Details(issuer, seller, ToTerm(asset), ToTerm(settlement), EMPTY_LOAN,
                 Params(leg, primaryType, Initiate, operationId, ReleaseOrRedeem(destination))))
    case Loan(borrower, lender, asset, settlement, loanTerms) =>
      Ok(Details(lender, borrower, ToTerm(asset), ToTerm(settlement), loanTerms,
                 Params(leg, primaryType, if sequence > 3 then Close else Initiate, operationId, ReleaseIt)))
    case PrivateOffer(buyer, seller, asset, settlement) =>
      Ok(Details(buyer, seller, ToTerm(asset), ToTerm(settlement), EMPTY_LOAN, Params(leg, primaryType, Initiate, operationId, ReleaseIt)))
    case Move(source, dest, asset) =>
      Ok(Details(dest, source, ToTerm(asset), EMPTY_TERM, EMPTY_LOAN,
                 Params(leg, primaryType, Initiate, operationId, ReleaseOrRedeem(destination))))
    case Unsupported(_, _, _) => Err("Unsupported signature template primary type")
  }

  /* ---- checking a request ---- */

  datatype Party = Buyer | Seller
  datatype Sum = AssetAmount | SettlementAmount | Borrowed | Returned

  /** The ValidationErrors, by what does not match. */
  datatype Verdict = Accepted | NotDecoded(error: string) | WrongDestination(payee: Party) | WrongSource(payer: Party) | WrongQuantity(due: Sum)

  datatype Request = Request(source: string, destination: Option<string>, quantity: string)

  function FinIdOf(d: Details, p: Party): string {
    match p case Buyer => d.buyer case Seller => d.seller
  }

  function SumOf(d: Details, s: Sum): string {
    match s
    case AssetAmount => d.asset.amount
    case SettlementAmount => d.settlement.amount
    case Borrowed => d.loan.borrowedMoneyAmount
    case Returned => d.loan.returnedMoneyAmount
  }

  /** One branch: the destination, then the source, then the quantity. */
  function Check(r: Request, d: Details, payee: Party, payer: Party, due: Sum): Verdict {
    if r.destination.Some? && FinIdOf(d, payee) != r.destination.value then WrongDestination(payee)
    else if FinIdOf(d, payer) != r.source then WrongSource(payer)
    else if r.quantity != SumOf(d, due) then WrongQuantity(due)
    else Accepted
  }

  function ValidateRequest(r: Request, d: Details): Verdict {
    if d.params.primaryType == LoanType then
      match d.params.phase
      case Initiate =>
        (match d.params.leg
         case AssetLeg => Check(r, d, Buyer, Seller, AssetAmount)
         case SettlementLeg => Check(r, d, Seller, Buyer, Borrowed))
      case Close =>
        (match d.params.leg
         case AssetLeg => Check(r, d, Seller, Buyer, AssetAmount)
         case SettlementLeg => Check(r, d, Buyer, Seller, Returned))
    else
      match d.params.leg
      case AssetLeg => Check(r, d, Buyer, Seller, AssetAmount)
      case SettlementLeg => Check(r, d, Seller, Buyer, SettlementAmount)
  }

  /** Decode, then check. */
  function Admit(r: Request, a: Asset, t: Template, sequence: int): Verdict {
    match ExtractBusinessDetails(a, r.destination, None, t, sequence)
    case Err(error) => NotDecoded(error)
    case Ok(details) => ValidateRequest(r, details)
  }

  /* ---- what admission means ---- */

  /** Who hands over the asset, and who receives it, when the deal is struck. */
  function Giver(m: Message): string
    requires !m.Unsupported?
  {
    match m
    case PrimarySale(_, issuer, _, _) => issuer
    case Loan(borrower, _, _, _, _) => borrower
    case Move(source, _, _) => source
    case Buying(_, seller, _, _) => seller
    case Selling(_, seller, _, _) => seller
    case Redemption(seller, _, _, _) => seller
    case Transfer(_, seller, _) => seller
    case PrivateOffer(_, seller, _, _) => seller
  }

  function Taker(m: Message): string
    requires !m.Unsupported?
  {
    match m
    case Redemption(_, issuer, _, _) => issuer
    case Loan(_, lender, _, _, _) => lender
    case Move(_, destination, _) => destination
    case PrimarySale(buyer, _, _, _) => buyer
    case Buying(buyer, _, _, _) => buyer
    case Selling(buyer, _, _, _) => buyer
    case Transfer(buyer, _, _) => buyer
    case PrivateOffer(buyer, _, _, _) => buyer
  }

  const DOLLARS := {"USD", "USDC"}
  const MONEY := {"fiat", "cryptocurrency"}

  /** A term is about an asset if it has its id and its type -- "finp2p" if the
      term leaves the type out -- or if both are dollars: then any two symbols
      match, the term being of money and the asset of money or of no type of its
      own. */
  predicate IsAbout(t: EipTerm, a: Asset) {
    var termType := if t.assetType.Some? then t.assetType.value else "finp2p";
    || (t.assetId == a.assetId && termType == a.assetType)
    || ({t.assetId, a.assetId} <= DOLLARS && termType in MONEY && a.assetType in MONEY + {"finp2p"})
  }

  predicate Settles(m: Message, a: Asset)
    requires !m.Unsupported?
  {
    !m.Transfer? && !m.Move? && IsAbout(m.settlement, a)
  }

  /** A message that is understood and speaks of the asset in one of its terms. */
  predicate Speaks(t: Template, a: Asset) {
    t.EIP712? && !t.message.Unsupported? && (IsAbout(t.message.asset, a) || Settles(t.message, a))
  }

  /** The first bit: this leg pays, the asset not being the one that is sold. The
      second: a loan is being closed. */
  predicate Pays(a: Asset, m: Message)
    requires !m.Unsupported?
  {
    !IsAbout(m.asset, a) && Settles(m, a)
  }

  predicate Closing(m: Message, sequence: int) { m.Loan? && sequence > 3 }

  function AmountDue(a: Asset, m: Message, sequence: int): string
    requires Speaks(EIP712(m), a)
  {
    if !Pays(a, m) then m.asset.amount
    else if !m.Loan? then m.settlement.amount
    else if Closing(m, sequence) then m.loanTerms.returnedMoneyAmount
    else m.loanTerms.borrowedMoneyAmount
  }

  /** What decoding finds, whatever the intent: parties, terms and loan are those
      of the message, and the leg, the primary type, the phase and the release
      type are what it calls for. */
  lemma Decoded(a: Asset, destination: Option<string>, operationId: Option<string>, t: Template, sequence: int)
    ensures var r := ExtractBusinessDetails(a, destination, operationId, t, sequence);
            && (r.Ok? <==> Speaks(t, a))
            && (r.Ok? ==> && r.value.buyer == Taker(t.message) && r.value.seller == Giver(t.message)
                          && DecodedTerms(t.message, r.value)
                          && DecodedParams(a, t.message, sequence, r.value.params)
                          && r.value.params.operationId == operationId
                          && (r.value.params.releaseType == RedeemIt <==> MayBurn(t.message) && ToNobody(destination)))
  {
    if t.EIP712? && !t.message.Unsupported? {
      LegFound(a, t.message);
      if DetectLeg(a, t).Ok? {
        DecodedWho(a, destination, operationId, t.message, sequence);
        DecodedHow(a, destination, operationId, t.message, sequence);
      }
    }
  }

  lemma DecodedWho(a: Asset, destination: Option<string>, operationId: Option<string>, m: Message, sequence: int)
    requires !m.Unsupported? && DetectLeg(a, EIP712(m)).Ok?
    ensures var r := ExtractBusinessDetails(a, destination, operationId, EIP712(m), sequence);
            r.Ok? && r.value.buyer == Taker(m) && r.value.seller == Giver(m) && DecodedTerms(m, r.value)
  {
  }

  lemma DecodedHow(a: Asset, destination: Option<string>, operationId: Option<string>, m: Message, sequence: int)
    requires !m.Unsupported? && DetectLeg(a, EIP712(m)).Ok?
    ensures var r := ExtractBusinessDetails(a, destination, operationId, EIP712(m), sequence);
            && r.Ok? && DetectLeg(a, EIP712(m)) == Ok(r.value.params.leg) && IsType(r.value.params.primaryType, m)
            && r.value.params.phase == (if Closing(m, sequence) then Close else Initiate)
            && r.value.params.operationId == operationId
            && (r.value.params.releaseType == RedeemIt <==> MayBurn(m) && ToNobody(destination))
  {
  }

  /** The intents that can end in a burn, and a destination that is absent or empty. */
  predicate MayBurn(m: Message) { m.Transfer? || m.Redemption? || m.Move? }

  predicate ToNobody(destination: Option<string>) { destination.None? || destination.value == "" }

  lemma LegFound(a: Asset, m: Message)
    requires !m.Unsupported?
    ensures DetectLeg(a, EIP712(m)).Ok? <==> Speaks(EIP712(m), a)
    ensures DetectLeg(a, EIP712(m)) == Ok(SettlementLeg) <==> Pays(a, m)
  {
    ComparedIff(a, m.asset);
    if !m.Transfer? && !m.Move? { ComparedIff(a, m.settlement); }
  }

  lemma ComparedIff(a: Asset, t: EipTerm)
    ensures CompareAssets(a, t) <==> IsAbout(t, a)
  {
    assert WellKnown(a.assetId) <==> a.assetId in DOLLARS;
    assert WellKnown(t.assetId) <==> t.assetId in DOLLARS;
  }

  /** A term says what it says in the message; its type is "finp2p" if left out. */
  predicate IsTerm(term: Term, t: EipTerm) {
    term.assetId == t.assetId && term.amount == t.amount
    && term.assetType == if t.assetType.Some? then t.assetType.value else "finp2p"
  }

  predicate DecodedTerms(m: Message, d: Details)
    requires !m.Unsupported?
  {
    && IsTerm(d.asset, m.asset)
    && (if m.Transfer? || m.Move? then d.settlement == Term("", "", "") else IsTerm(d.settlement, m.settlement))
    && d.loan == if m.Loan? then m.loanTerms else LoanTerms("", "")
  }

  predicate DecodedParams(a: Asset, m: Message, sequence: int, p: Params)
    requires !m.Unsupported?
  {
    && p.leg == (if Pays(a, m) then SettlementLeg else AssetLeg)
    && IsType(p.primaryType, m)
    && p.phase == if Closing(m, sequence) then Close else Initiate
  }

  /** Each intent has a primary type of its own. */
  predicate IsType(p: PrimaryType, m: Message) {
    match p
    case PrimarySaleType => m.PrimarySale?
    case BuyingType => m.Buying?
    case SellingType => m.Selling?
    case RedemptionType => m.Redemption?
    case TransferType => m.Transfer?
    case PrivateOfferType => m.PrivateOffer?
    case LoanType => m.Loan?
    case MoveType => m.Move?
  }

  lemma ChecksAgainst(r: Request, a: Asset, m: Message, sequence: int, d: Details)
    requires !m.Unsupported? && d.buyer == Taker(m) && d.seller == Giver(m)
    requires DecodedTerms(m, d) && DecodedParams(a, m, sequence, d.params) && Speaks(EIP712(m), a)
    ensures ValidateRequest(r, d) == Accepted <==>
            && (var flipped := Pays(a, m) != Closing(m, sequence);
                && r.source == (if flipped then Taker(m) else Giver(m))
                && (r.destination.Some? ==> r.destination.value == if flipped then Giver(m) else Taker(m)))
            && r.quantity == AmountDue(a, m, sequence)
  {
    assert Pays(a, m) <==> d.params.leg == SettlementLeg;
  }

  /** For every intent: a request is admitted exactly when the asset is one of
      the two in the message, source and destination are giver and taker --
      exchanged if exactly one of the two bits is set -- and the quantity is the
      amount due on that leg in that phase. */
  lemma AdmittedIff(r: Request, a: Asset, t: Template, sequence: int)
    ensures Admit(r, a, t, sequence) == Accepted <==>
            && Speaks(t, a)
            && (var flipped := Pays(a, t.message) != Closing(t.message, sequence);
                && r.source == (if flipped then Taker(t.message) else Giver(t.message))
                && (r.destination.Some? ==> r.destination.value == if flipped then Giver(t.message) else Taker(t.message)))
            && r.quantity == AmountDue(a, t.message, sequence)
  {
    Decoded(a, r.destination, None, t, sequence);
    var details := ExtractBusinessDetails(a, r.destination, None, t, sequence);
    if details.Ok? {
      ChecksAgainst(r, a, t.message, sequence, details.value);
    }
  }

  lemma RefusesAgainst(r: Request, a: Asset, m: Message, sequence: int, d: Details)
    requires Speaks(EIP712(m), a) && d.buyer == Taker(m) && d.seller == Giver(m)
    requires DecodedTerms(m, d) && DecodedParams(a, m, sequence, d.params)
    ensures var flipped, v := Pays(a, m) != Closing(m, sequence), ValidateRequest(r, d);
            && (v.WrongDestination? <==> r.destination.Some? && r.destination.value != if flipped then Giver(m) else Taker(m))
            && (v.WrongSource? <==> !v.WrongDestination? && r.source != if flipped then Taker(m) else Giver(m))
            && (v.WrongQuantity? <==> !v.WrongDestination? && !v.WrongSource? && r.quantity != AmountDue(a, m, sequence))
            && (v.WrongDestination? ==> v.payee == if flipped then Seller else Buyer)
            && (v.WrongSource? ==> v.payer == if flipped then Buyer else Seller)
  {
    assert Pays(a, m) <==> d.params.leg == SettlementLeg;
  }

  /** A refusal says what is wrong, and the first thing that is: a message that
      does not speak of the asset, then the destination, the source, the quantity. */
  lemma RefusedFor(r: Request, a: Asset, t: Template, sequence: int)
    ensures var v := Admit(r, a, t, sequence);
            && (v.NotDecoded? <==> !Speaks(t, a))
            && (Speaks(t, a) ==>
                  var flipped := Pays(a, t.message) != Closing(t.message, sequence);
                  && (v.WrongDestination? <==> r.destination.Some? && r.destination.value != if flipped then Giver(t.message) else Taker(t.message))
                  && (v.WrongSource? <==> !v.WrongDestination? && r.source != if flipped then Taker(t.message) else Giver(t.message))
                  && (v.WrongQuantity? <==> !v.WrongDestination? && !v.WrongSource? && r.quantity != AmountDue(a, t.message, sequence))
                  && (v.WrongDestination? ==> v.payee == if flipped then Seller else Buyer)
                  && (v.WrongSource? ==> v.payer == if flipped then Buyer else Seller))
  {
    Decoded(a, r.destination, None, t, sequence);
    var details := ExtractBusinessDetails(a, r.destination, None, t, sequence);
    if details.Ok? {
      RefusesAgainst(r, a, t.message, sequence, details.value);
    }
  }
}
