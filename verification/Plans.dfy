/** The normalised plan every approval option reads
    (src/services/plan-approval/plan-introspection.ts). */
module Plans {
  import opened Wrappers
  import opened Chain

  /* ---- the plan as FinAPI sends it ---- */

  datatype RawAccount = RawAccount(finId: Option<string>, assetId: Option<string>, address: Option<Address>)
  datatype RawInstruction = RawInstruction(sequence: Option<int>, kind: Option<string>, organizations: Option<seq<string>>,
                                           source: Option<RawAccount>, destination: Option<RawAccount>, amount: Option<string>)
  datatype RawPlan = RawPlan(instructions: Option<seq<RawInstruction>>)

  /* ---- and as the options see it ---- */

  datatype Instruction = Instruction(sequence: Option<int>, kind: Option<string>, organizations: seq<string>, local: bool,
                                     sourceFinId: Option<string>, destinationFinId: Option<string>,
                                     sourceAddress: Option<Address>, destinationAddress: Option<Address>,
                                     assetId: Option<string>, amount: Option<string>)
  datatype Plan = Plan(planId: string, orgId: string, instructions: seq<Instruction>)

  function FinIdOf(a: Option<RawAccount>): Option<string> { if a.Some? then a.value.finId else None }
  function AssetIdOf(a: Option<RawAccount>): Option<string> { if a.Some? then a.value.assetId else None }
  function AddressOf(a: Option<RawAccount>): Option<Address> { if a.Some? then a.value.address else None }

  function Introspected(orgId: string, raw: RawInstruction): Instruction {
    var organizations := raw.organizations.GetOr([]);
    Instruction(raw.sequence, raw.kind, organizations, |organizations| == 0 || orgId in organizations,
                FinIdOf(raw.source), FinIdOf(raw.destination), AddressOf(raw.source), AddressOf(raw.destination),
                if AssetIdOf(raw.source).Some? then AssetIdOf(raw.source) else AssetIdOf(raw.destination), raw.amount)
  }

  function IntrospectPlan(planId: string, orgId: string, raw: RawPlan): Plan {
    var instructions := raw.instructions.GetOr([]);
    Plan(planId, orgId, seq(|instructions|, i requires 0 <= i < |instructions| => Introspected(orgId, instructions[i])))
  }

  /** What the options see of an instruction is what FinAPI sent: the parties'
      finIds and addresses, the asset of the source or, if it names none, of the
      destination; it is local if it has no organizations or names ours. */
  lemma Introspects(planId: string, orgId: string, raw: RawPlan, n: nat)
    requires raw.instructions.Some? && n < |raw.instructions.value|
    ensures |IntrospectPlan(planId, orgId, raw).instructions| == |raw.instructions.value|
    ensures var i, r := IntrospectPlan(planId, orgId, raw).instructions[n], raw.instructions.value[n];
            && i.sequence == r.sequence && i.kind == r.kind && i.amount == r.amount
            && (i.local <==> r.organizations.None? || r.organizations.value == [] || orgId in r.organizations.value)
            && (forall f :: i.sourceFinId == Some(f) <==> r.source.Some? && r.source.value.finId == Some(f))
            && (forall f :: i.destinationFinId == Some(f) <==> r.destination.Some? && r.destination.value.finId == Some(f))
            && (forall a :: i.sourceAddress == Some(a) <==> r.source.Some? && r.source.value.address == Some(a))
            && (forall a :: i.destinationAddress == Some(a) <==> r.destination.Some? && r.destination.value.address == Some(a))
            && (forall a :: i.assetId == Some(a) <==> NamesAsset(r, a))
  {
  }

  predicate NamesAsset(r: RawInstruction, assetId: string) {
    if r.source.Some? && r.source.value.assetId.Some? then r.source.value.assetId.value == assetId
    else r.destination.Some? && r.destination.value.assetId == Some(assetId)
  }

  /** A field that is there and not empty. */
  predicate Given(s: Option<string>) { s.Some? && s.value != "" }
}
