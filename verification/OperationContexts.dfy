/** The direct-mode derivation of an operation's context
    (src/services/operations/operation-context.ts) and how far it agrees with
    the on-chain one. */
module OperationContexts {
  import opened Wrappers
  import opened Intents

  datatype OperationContext = OperationContext(leg: LegType, phase: Phase, primaryType: PrimaryType, operationId: Option<string>, releaseType: ReleaseType)

  /** The execution context carries the sequence number of the instruction. */
  datatype ExecutionContext = ExecutionContext(sequence: int)

  /** No signature, or a template that is not EIP712, leaves only the defaults. */
  function Eip712(signature: Option<Template>): Option<Message> {
    if signature.Some? && signature.value.EIP712? then Some(signature.value.message) else None
  }

  /** By asset id alone. */
  function DirectLeg(a: Asset, m: Message): LegType {
    if AssetTerm(m).Some? && AssetTerm(m).value.assetId == a.assetId then AssetLeg
    else if SettlementTerm(m).Some? && SettlementTerm(m).value.assetId == a.assetId then SettlementLeg
    else AssetLeg
  }

  function MapPrimaryType(m: Message): PrimaryType {
    match m
    case PrimarySale(_, _, _, _) => PrimarySaleType
    case Buying(_, _, _, _) => BuyingType
    case Selling(_, _, _, _) => SellingType
    case Redemption(_, _, _, _) => RedemptionType
    case Transfer(_, _, _) => TransferType
    case PrivateOffer(_, _, _, _) => PrivateOfferType
    case Loan(_, _, _, _, _) => LoanType
    case Move(_, _, _) => MoveType
    case Unsupported(_, _, _) => TransferType
  }

  function BuildOperationContext(a: Asset, signature: Option<Template>, exCtx: Option<ExecutionContext>,
                                 operationId: Option<string>, releaseType: ReleaseType): Option<OperationContext> {
    if exCtx.None? then None else
    var m := Eip712(signature);
    Some(OperationContext(
      if m.Some? then DirectLeg(a, m.value) else AssetLeg,
      if exCtx.value.sequence > 4 then Close else Initiate,
      if m.Some? then MapPrimaryType(m.value) else TransferType,
      operationId, releaseType))
  }

  function DeriveReleaseType(signature: Option<Template>, destination: Option<string>): ReleaseType {
    var m := Eip712(signature);
    if m.None? || m.value.Transfer? || m.value.Redemption? || m.value.Move? then ReleaseOrRedeem(destination) else ReleaseIt
  }

  /* ---- the two derivations side by side ---- */

  /** Both derivations of one request, when the on-chain one goes through. */
  ghost predicate Derived(a: Asset, destination: Option<string>, operationId: Option<string>, m: Message, sequence: int,
                          direct: OperationContext, onchain: Params) {
    && ExtractBusinessDetails(a, destination, operationId, EIP712(m), sequence).Ok?
    && onchain == ExtractBusinessDetails(a, destination, operationId, EIP712(m), sequence).value.params
    && BuildOperationContext(a, Some(EIP712(m)), Some(ExecutionContext(sequence)), operationId,
                             DeriveReleaseType(Some(EIP712(m)), destination)) == Some(direct)
  }

  /** Direct mode marks a hold for burning exactly if it names nobody and has an
      intent that can end in a burn, or no EIP712 signature at all. */
  lemma BurnsIff(signature: Option<Template>, destination: Option<string>)
    ensures DeriveReleaseType(signature, destination) == RedeemIt <==>
            ToNobody(destination) && (signature.None? || signature.value.HashList? || MayBurn(signature.value.message))
    ensures DeriveReleaseType(signature, destination) == ReleaseIt <==> DeriveReleaseType(signature, destination) != RedeemIt
  {
  }

  /** Without an EIP712 signature -- every release and rollback, and every issue
      -- a context says asset leg and transfer, and carries what the caller asks
      for; there is one exactly if there is an execution context, and whatever is
      signed it closes exactly past sequence 4. */
  lemma ContextBuilt(a: Asset, signature: Option<Template>, exCtx: Option<ExecutionContext>, operationId: Option<string>, releaseType: ReleaseType)
    ensures var built := BuildOperationContext(a, signature, exCtx, operationId, releaseType);
            && (built.Some? <==> exCtx.Some?)
            && (built.Some? ==>
                  && built.value.operationId == operationId && built.value.releaseType == releaseType
                  && built.value.phase == (if exCtx.value.sequence > 4 then Close else Initiate)
                  && (signature.None? || signature.value.HashList? ==> built.value.leg == AssetLeg && built.value.primaryType == TransferType)
                  && (signature.Some? && signature.value.EIP712? && !signature.value.message.Unsupported? ==>
                        IsType(built.value.primaryType, signature.value.message)))
  {
  }

  /** Primary type, release type and operation id always agree, and are those of
      the intent; the phase agrees for a loan at every sequence but 4, and
      otherwise up to sequence 4. */
  lemma ContextsMirror(a: Asset, destination: Option<string>, operationId: Option<string>, m: Message, sequence: int,
                       direct: OperationContext, onchain: Params)
    requires Derived(a, destination, operationId, m, sequence, direct, onchain)
    ensures direct.primaryType == onchain.primaryType && IsType(direct.primaryType, m)
    ensures direct.releaseType == onchain.releaseType && (direct.releaseType == RedeemIt <==> MayBurn(m) && ToNobody(destination))
    ensures direct.operationId == onchain.operationId == operationId
    ensures direct.phase == onchain.phase <==> if m.Loan? then sequence != 4 else sequence <= 4
  {
    Decoded(a, destination, operationId, EIP712(m), sequence);
    BurnsIff(Some(EIP712(m)), destination);
    ContextBuilt(a, Some(EIP712(m)), Some(ExecutionContext(sequence)), operationId, direct.releaseType);
  }

  /** The on-chain comparison finds the asset in the term, if there is one. */
  predicate Names(a: Asset, t: Option<EipTerm>) { t.Some? && CompareAssets(a, t.value) }

  predicate CarriesId(a: Asset, t: Option<EipTerm>) { t.Some? && t.value.assetId == a.assetId }

  /** The leg: agreement exactly when direct mode, which looks at ids alone, is
      not sent to the other term -- the settlement term is found by its id and
      the asset term does not carry it, or the asset term is found and it is not
      the settlement term alone that carries the id. */
  lemma LegsMirrorIff(a: Asset, destination: Option<string>, operationId: Option<string>, m: Message, sequence: int,
                      direct: OperationContext, onchain: Params)
    requires Derived(a, destination, operationId, m, sequence, direct, onchain)
    ensures direct.leg == onchain.leg <==>
      if Names(a, AssetTerm(m)) then CarriesId(a, AssetTerm(m)) || !CarriesId(a, SettlementTerm(m))
      else CarriesId(a, SettlementTerm(m)) && !CarriesId(a, AssetTerm(m))
  {
    Decoded(a, destination, operationId, EIP712(m), sequence);
  }

  /** In particular the legs agree whenever the on-chain match was by id and the
      two terms name different assets. */
  lemma LegsMirror(a: Asset, destination: Option<string>, operationId: Option<string>, m: Message, sequence: int,
                   direct: OperationContext, onchain: Params)
    requires Derived(a, destination, operationId, m, sequence, direct, onchain)
    requires CarriesId(a, if onchain.leg == AssetLeg then AssetTerm(m) else SettlementTerm(m))
    requires SettlementTerm(m).Some? ==> m.asset.assetId != m.settlement.assetId
    ensures direct.leg == onchain.leg
  {
    Decoded(a, destination, operationId, EIP712(m), sequence);
  }

  /** Where they part: USDC pays for a term written in USD. */
  lemma WellKnownSymbolsPart()
    ensures var a, bond, dollars := Asset("USDC", "finp2p"), EipTerm("bond", None, "1"), EipTerm("USD", Some("fiat"), "5");
            var m := Selling("b", "s", bond, dollars);
            DetectLeg(a, EIP712(m)) == Ok(SettlementLeg) && DirectLeg(a, m) == AssetLeg
  {
    assert "USD"[1] == 'S' && |"USDC"| != |"USD"|;
  }
}
