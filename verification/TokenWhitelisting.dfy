/** The whitelisting option (src/services/plan-approval/options/
    token-whitelisting-option.ts): a plan passes only if every investor it
    names on one of our restricted assets is resolved and whitelisted. */
module TokenWhitelisting {
  import opened Wrappers
  import opened Chain
  import opened Plans

  datatype StoredAsset = StoredAsset(contract: Address, standard: string)
  datatype Role = SourceRole | DestinationRole

  /** What the option asks; every call may throw. `standards` says of the
      registered ones, by upper-cased name, whether they support whitelisting. */
  datatype Lookups = Lookups(getAsset: string -> Result<Option<StoredAsset>>, standards: map<string, bool>,
                             resolveAccount: string -> Result<Option<Address>>,
                             isWhitelisted: (StoredAsset, string, Address, Role) -> Result<bool>)

  /** apply() returns nothing, returns a rejection, or throws. */
  datatype Applied = Passed | Vetoed(reason: string) | Threw(error: string)

  /** One party of an instruction: if named, it must resolve and be whitelisted. */
  function CheckParty(k: Lookups, asset: StoredAsset, finId: Option<string>, role: Role): Applied {
    if !Given(finId) then Passed else
    match k.resolveAccount(finId.value)
    case Err(error) => Threw(error)
    case Ok(address) =>
      if address.None? || address.value.text == "" then Vetoed("cannot resolve address")
      else match k.isWhitelisted(asset, finId.value, address.value, role)
           case Err(error) => Threw(error)
           case Ok(listed) => if listed then Passed else Vetoed("not whitelisted")
  }

  predicate Skipped(i: Instruction) { !i.local || !Given(i.assetId) || i.kind == Some("await") }

  method Apply(k: Lookups, plan: Plan) returns (r: Applied)
    ensures r.Passed? <==> forall n :: 0 <= n < |plan.instructions| ==> Cleared(k, plan.instructions[n])
  {
    for n := 0 to |plan.instructions|
      invariant forall m :: 0 <= m < n ==> Cleared(k, plan.instructions[m])
    {
      var instruction := plan.instructions[n];
      if Skipped(instruction) { continue; }
      var stored := k.getAsset(instruction.assetId.value);
      if stored.Err? { return Threw(stored.error); }
      if stored.value.None? { continue; }   // not kept in this adapter
      var asset := stored.value.value;
      if ToUpper(asset.standard) !in k.standards { return Vetoed("token standard is not registered"); }
      if !k.standards[ToUpper(asset.standard)] { continue; }
      var source := CheckParty(k, asset, instruction.sourceFinId, SourceRole);
      if !source.Passed? { return source; }
      var destination := CheckParty(k, asset, instruction.destinationFinId, DestinationRole);
      if !destination.Passed? { return destination; }
    }
    return Passed;
  }

  /** A named party resolves, and the asset's standard has it whitelisted. */
  predicate PartyCleared(k: Lookups, asset: StoredAsset, finId: Option<string>, role: Role) {
    Given(finId) ==>
      && k.resolveAccount(finId.value).Ok? && k.resolveAccount(finId.value).value.Some?
      && var address := k.resolveAccount(finId.value).value.value;
         address.text != "" && k.isWhitelisted(asset, finId.value, address, role) == Ok(true)
  }

  /** An asset that is kept here, under a standard that supports whitelisting. */
  predicate Restricted(k: Lookups, assetId: string) {
    && k.getAsset(assetId).Ok? && k.getAsset(assetId).value.Some?
    && var standard := ToUpper(k.getAsset(assetId).value.value.standard);
       standard in k.standards && k.standards[standard]
  }

  /** The asset can be looked up, and its standard is registered if it is kept here. */
  predicate Known(k: Lookups, assetId: string) {
    k.getAsset(assetId).Ok? && (k.getAsset(assetId).value.Some? ==> ToUpper(k.getAsset(assetId).value.value.standard) in k.standards)
  }

  predicate Cleared(k: Lookups, i: Instruction) {
    i.local && Given(i.assetId) && i.kind != Some("await") ==>
      && Known(k, i.assetId.value)
      && (Restricted(k, i.assetId.value) ==>
            var asset := k.getAsset(i.assetId.value).value.value;
            PartyCleared(k, asset, i.sourceFinId, SourceRole) && PartyCleared(k, asset, i.destinationFinId, DestinationRole))
  }
}
