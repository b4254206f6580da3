/** The plan approval service (src/services/plan-approval/
    configurable-plan-approval-service.ts): a base decision, then a list of
    options, any of which may stop the plan but none of which may pass it. */
module PlanApproval {
  import opened Wrappers
  import opened Chain
  import opened Plans
  import opened TokenWhitelisting

  datatype Status = Approved | Pending(cid: string) | Rejected(reason: string)

  /** What an option's apply() comes to: nothing, a status, or a thrown error. */
  datatype Answer = Void | Returned(status: Status) | Failure(error: string)

  datatype PlanOption = PlanOption(name: string, gating: bool, apply: Plan -> Answer)

  /** The option stops the plan: it vetoes, or it gates and fails. */
  predicate Stops(o: PlanOption, plan: Plan) {
    match o.apply(plan)
    case Void => false
    case Returned(status) => status.Rejected?
    case Failure(_) => o.gating
  }

  /** The plan is stopped: by the base, by an option, or because it cannot be
      looked at and some option would have had to. */
  ghost predicate Stopped(base: Status, options: seq<PlanOption>, plan: Option<Plan>) {
    || base.Rejected?
    || match plan
       case None => exists i :: 0 <= i < |options| && options[i].gating
       case Some(p) => exists i :: 0 <= i < |options| && Stops(options[i], p)
  }

  predicate FirstStop(options: seq<PlanOption>, plan: Plan, i: int) {
    0 <= i < |options| && Stops(options[i], plan) && forall j :: 0 <= j < i ==> !Stops(options[j], plan)
  }

  method ApprovePlan(base: Status, options: seq<PlanOption>, introspected: Option<Plan>) returns (r: Status, skippedAfterFailure: seq<string>)
    ensures r.Rejected? <==> Stopped(base, options, introspected)
    ensures !r.Rejected? || base.Rejected? ==> r == base
    ensures r.Rejected? && !base.Rejected? && introspected.Some? ==>
      exists i :: FirstStop(options, introspected.value, i)
                  && (options[i].apply(introspected.value).Returned? ==> r == options[i].apply(introspected.value).status)
    ensures !r.Rejected? ==> forall name :: name in skippedAfterFailure ==>
      exists i :: 0 <= i < |options| && options[i].name == name && !options[i].gating
  {
    skippedAfterFailure := [];
    if base.Rejected? || |options| == 0 { return base, skippedAfterFailure; }
    if introspected.None? {
      for i := 0 to |options|
        invariant forall j :: 0 <= j < i ==> !options[j].gating
      {
        if options[i].gating { return Rejected("plan introspection unavailable"), skippedAfterFailure; }
      }
      return base, skippedAfterFailure;
    }
    var plan := introspected.value;
    for i := 0 to |options|
      invariant forall j :: 0 <= j < i ==> !Stops(options[j], plan)
      invariant forall name :: name in skippedAfterFailure ==> exists j :: 0 <= j < i && options[j].name == name && !options[j].gating
    {
      var veto := options[i].apply(plan);
      assert Stops(options[i], plan) ==> FirstStop(options, plan, i);
      if veto.Failure? {
        if options[i].gating { return Rejected("approval option failed"), skippedAfterFailure; }
        skippedAfterFailure := skippedAfterFailure + [options[i].name];
        continue;
      }
      if veto.Returned? && veto.status.Rejected? { return veto.status, skippedAfterFailure; }
    }
    return base, skippedAfterFailure;
  }

  /** The verdict does not depend on the order of the options. */
  lemma VerdictIgnoresOrder(base: Status, one: seq<PlanOption>, two: seq<PlanOption>, plan: Option<Plan>)
    requires forall o :: o in one <==> o in two
    ensures Stopped(base, one, plan) <==> Stopped(base, two, plan)
  {
    SomeStops(base, one, two, plan);
    SomeStops(base, two, one, plan);
  }

  lemma SomeStops(base: Status, one: seq<PlanOption>, two: seq<PlanOption>, plan: Option<Plan>)
    requires forall o :: o in one ==> o in two
    ensures Stopped(base, one, plan) ==> Stopped(base, two, plan)
  {
    if Stopped(base, one, plan) && !base.Rejected? {
      if plan.None? {
        var i :| 0 <= i < |one| && one[i].gating;
        assert one[i] in two;
      } else {
        var i :| 0 <= i < |one| && Stops(one[i], plan.value);
        assert one[i] in two;
      }
    }
  }

  /** The whitelisting option among the others: `apply` answers as Apply does. */
  ghost predicate IsWhitelisting(o: PlanOption, k: Lookups) {
    o.gating && forall plan :: (match o.apply(plan)
                                case Void => forall n :: 0 <= n < |plan.instructions| ==> Cleared(k, plan.instructions[n])
                                case Returned(status) => status.Rejected?
                                case Failure(_) => true)
  }

  /** A local instruction as FinAPI sent it, on this asset. */
  predicate LocalOn(orgId: string, raw: RawInstruction, assetId: string) {
    && raw.kind != Some("await") && (raw.organizations.None? || raw.organizations.value == [] || orgId in raw.organizations.value)
    && assetId != "" && NamesAsset(raw, assetId)
  }

  predicate NamesParty(account: Option<RawAccount>, finId: string) { account.Some? && account.value.finId == Some(finId) && finId != "" }

  predicate WhitelistedOn(k: Lookups, finId: string, assetId: string, role: Role) {
    && k.getAsset(assetId).Ok? && k.getAsset(assetId).value.Some?
    && k.resolveAccount(finId).Ok? && k.resolveAccount(finId).value.Some?
    && k.isWhitelisted(k.getAsset(assetId).value.value, finId, k.resolveAccount(finId).value.value, role) == Ok(true)
  }

  /** With the whitelisting option configured, a plan that is not rejected could
      be looked at, and every investor that one of its local instructions names
      on a restricted asset of ours resolves and is whitelisted. */
  lemma ApprovedMeansWhitelisted(base: Status, options: seq<PlanOption>, at: nat, k: Lookups, planId: string, orgId: string,
                                 raw: Option<RawPlan>, n: nat, finId: string, assetId: string)
    requires at < |options| && IsWhitelisting(options[at], k)
    requires !Stopped(base, options, if raw.Some? then Some(IntrospectPlan(planId, orgId, raw.value)) else None)
    ensures raw.Some?
    ensures raw.value.instructions.Some? && n < |raw.value.instructions.value|
            && LocalOn(orgId, raw.value.instructions.value[n], assetId) && Restricted(k, assetId) ==>
            (NamesParty(raw.value.instructions.value[n].source, finId) ==> WhitelistedOn(k, finId, assetId, SourceRole))
            && (NamesParty(raw.value.instructions.value[n].destination, finId) ==> WhitelistedOn(k, finId, assetId, DestinationRole))
  {
    if raw.Some? {
      var plan := IntrospectPlan(planId, orgId, raw.value);
      assert !Stops(options[at], plan);
      if raw.value.instructions.Some? && n < |raw.value.instructions.value| {
        Introspects(planId, orgId, raw.value, n);
        assert Cleared(k, plan.instructions[n]);
      }
    }
  }
}
