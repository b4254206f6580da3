/** De-whitelisting sweeps (src/services/accounts/
    investor-whitelist-service.ts): every capable asset is attempted, refusals
    do not stop the others, and a retry converges. */
module InvestorWhitelists {
  import opened Wrappers
  import opened Chain

  /** An asset as stored; an entry of the token's own whitelist is per contract. */
  datatype StoredAsset = StoredAsset(id: string, contract: Address, standard: string)
  datatype Entry = Entry(party: Address, contract: Address)

  datatype Party = ByAddress(address: Address) | ByFinId(finId: string)

  /** What the service looks things up in: of the registered standards, by
      upper-cased name, whether they support whitelisting. */
  datatype Lookups = Lookups(assets: seq<StoredAsset>, standards: map<string, bool>, accounts: map<string, Address>)

  predicate Capable(k: Lookups, a: StoredAsset) { ToUpper(a.standard) in k.standards && k.standards[ToUpper(a.standard)] }

  function CapableAssets(k: Lookups, assets: seq<StoredAsset>): seq<StoredAsset> {
    if assets == [] then [] else
    var last := assets[|assets| - 1];
    CapableAssets(k, assets[..|assets| - 1]) + if Capable(k, last) then [last] else []
  }

  /** An address party is taken as it is; a finId is who it is mapped to. */
  predicate IsAt(k: Lookups, p: Party, address: Address) {
    match p
    case ByAddress(a) => a == address
    case ByFinId(finId) => finId in k.accounts && k.accounts[finId] == address && address.text != ""
  }

  function ResolveParty(k: Lookups, p: Party): (r: Result<Address>)
    ensures r.Ok? ==> IsAt(k, p, r.value)
    ensures r.Err? ==> forall address :: !IsAt(k, p, address)
  {
    match p
    case ByAddress(address) => Ok(address)
    case ByFinId(finId) =>
      if finId in k.accounts && k.accounts[finId].text != "" then Ok(k.accounts[finId]) else Err("no address mapped for finId")
  }

  predicate FirstWithId(assets: seq<StoredAsset>, id: string, i: int) {
    0 <= i < |assets| && assets[i].id == id && forall j :: 0 <= j < i ==> assets[j].id != id
  }

  /** The stored asset of an id, the first one. */
  function GetAsset(assets: seq<StoredAsset>, id: string): (r: Option<StoredAsset>)
    ensures r.Some? ==> exists i :: FirstWithId(assets, id, i) && r.value == assets[i]
    ensures r.None? ==> forall i :: !FirstWithId(assets, id, i)
  {
    if assets == [] then None
    else if assets[0].id == id then
      assert FirstWithId(assets, id, 0);
      Some(assets[0])
    else
      var r := GetAsset(assets[1..], id);
      assert forall i :: FirstWithId(assets, id, i) ==> FirstWithId(assets[1..], id, i - 1);
      assert forall i :: FirstWithId(assets[1..], id, i) ==> FirstWithId(assets, id, i + 1) && assets[i + 1] == assets[1..][i];
      r
  }

  function CapableAsset(k: Lookups, id: string): (r: Result<StoredAsset>)
    ensures r.Ok? ==> Capable(k, r.value) && exists i :: FirstWithId(k.assets, id, i) && r.value == k.assets[i]
    ensures r.Err? ==> forall i :: FirstWithId(k.assets, id, i) ==> !Capable(k, k.assets[i])
  {
    match GetAsset(k.assets, id)
    case None => Err("asset is not kept in this adapter")
    case Some(a) => if Capable(k, a) then Ok(a) else Err("token standard has no whitelisting capability")
  }

  /** One asset, or all capable ones. */
  function Swept(k: Lookups, assetId: Option<string>): Result<seq<StoredAsset>> {
    if assetId.Some? && assetId.value != "" then
      var a :- CapableAsset(k, assetId.value);
      Ok([a])
    else Ok(CapableAssets(k, k.assets))
  }

  /** What a standard says to a removal; a refusal leaves the whitelist alone. */
  type Policy = Entry -> bool

  /** A sweep so far. */
  datatype Sweep = Sweep(whitelisted: set<Entry>, removed: seq<StoredAsset>, refused: seq<StoredAsset>, skipped: seq<StoredAsset>)

  function SweepOne(s: Sweep, party: Address, a: StoredAsset, refuses: Policy): Sweep {
    var e := Entry(party, a.contract);
    if e !in s.whitelisted then s.(skipped := s.skipped + [a])
    else if refuses(e) then s.(refused := s.refused + [a])
    else s.(whitelisted := s.whitelisted - {e}, removed := s.removed + [a])
  }

  function SweepAll(whitelisted: set<Entry>, party: Address, assets: seq<StoredAsset>, refuses: Policy): Sweep {
    if assets == [] then Sweep(whitelisted, [], [], [])
    else SweepOne(SweepAll(whitelisted, party, assets[..|assets| - 1], refuses), party, assets[|assets| - 1], refuses)
  }

  predicate Among(assets: seq<StoredAsset>, contract: Address) { exists i :: 0 <= i < |assets| && assets[i].contract == contract }

  lemma AmongGrows(assets: seq<StoredAsset>, contract: Address)
    requires assets != []
    ensures Among(assets, contract) <==> Among(assets[..|assets| - 1], contract) || assets[|assets| - 1].contract == contract
  {
    var init := assets[..|assets| - 1];
    assert assets == init + [assets[|assets| - 1]];
    if i :| 0 <= i < |init| && init[i].contract == contract {
      assert assets[i].contract == contract;
    }
  }

  /** What is left: everything of other parties, of assets not swept, and what
      was refused. */
  lemma {:induction false} LeftIsRefused(whitelisted: set<Entry>, party: Address, assets: seq<StoredAsset>, refuses: Policy, e: Entry)
    ensures e in SweepAll(whitelisted, party, assets, refuses).whitelisted
       <==> e in whitelisted && (e.party != party || !Among(assets, e.contract) || refuses(e))
  {
    if assets != [] {
      LeftIsRefused(whitelisted, party, assets[..|assets| - 1], refuses, e);
      AmongGrows(assets, e.contract);
    }
  }

  function Parts(s: Sweep): multiset<StoredAsset> { multiset(s.skipped) + multiset(s.removed) + multiset(s.refused) }

  lemma OneSplits(s: Sweep, party: Address, a: StoredAsset, refuses: Policy)
    ensures Parts(SweepOne(s, party, a, refuses)) == Parts(s) + multiset{a}
  {
  }

  /** Every asset is skipped, removed or refused. */
  lemma {:induction false} SweepSplits(whitelisted: set<Entry>, party: Address, assets: seq<StoredAsset>, refuses: Policy)
    ensures multiset(assets) == Parts(SweepAll(whitelisted, party, assets, refuses))
  {
    if assets != [] {
      var init, last := assets[..|assets| - 1], assets[|assets| - 1];
      SweepSplits(whitelisted, party, init, refuses);
      assert assets == init + [last];
      OneSplits(SweepAll(whitelisted, party, init, refuses), party, last, refuses);
    }
  }

  /** The number removed is the number of entries that are gone. */
  lemma {:induction false} RemovedAreGone(whitelisted: set<Entry>, party: Address, assets: seq<StoredAsset>, refuses: Policy)
    ensures var s := SweepAll(whitelisted, party, assets, refuses);
            s.whitelisted <= whitelisted && |whitelisted| - |s.whitelisted| == |s.removed|
  {
    if assets != [] {
      RemovedAreGone(whitelisted, party, assets[..|assets| - 1], refuses);
    }
  }

  function ListedFor(whitelisted: set<Entry>, party: Address): StoredAsset -> bool {
    (a: StoredAsset) => Entry(party, a.contract) in whitelisted
  }

  function RefusedFrom(whitelisted: set<Entry>, party: Address, refuses: Policy): StoredAsset -> bool {
    (a: StoredAsset) => Entry(party, a.contract) in whitelisted && refuses(Entry(party, a.contract))
  }

  /** An asset is refused exactly if its entry was there and removing it is refused. */
  lemma {:induction false} RefusedAre(whitelisted: set<Entry>, party: Address, assets: seq<StoredAsset>, refuses: Policy)
    ensures SweepAll(whitelisted, party, assets, refuses).refused
         == Filtered(assets, RefusedFrom(whitelisted, party, refuses))
  {
    if assets != [] {
      var init, last := assets[..|assets| - 1], assets[|assets| - 1];
      RefusedAre(whitelisted, party, init, refuses);
      LeftIsRefused(whitelisted, party, init, refuses, Entry(party, last.contract));
    }
  }

  function Filtered<T>(s: seq<T>, keep: T -> bool): seq<T> {
    if s == [] then [] else Filtered(s[..|s| - 1], keep) + if keep(s[|s| - 1]) then [s[|s| - 1]] else []
  }

  lemma {:induction false} SameFilter<T>(s: seq<T>, one: T -> bool, two: T -> bool)
    requires forall x :: x in s ==> one(x) == two(x)
    ensures Filtered(s, one) == Filtered(s, two)
  {
    if s != [] {
      SameFilter(s[..|s| - 1], one, two);
    }
  }

  /** A retry converges, however far the sweep before it got -- `done` assets, by
      when a fault was thrown, or all of them: what is whitelisted in the end is
      what one undisturbed sweep leaves, and the same assets are refused. */
  lemma RetryConverges(whitelisted: set<Entry>, party: Address, assets: seq<StoredAsset>, refuses: Policy, done: nat)
    requires done <= |assets|
    ensures var once := SweepAll(whitelisted, party, assets, refuses);
            var again := SweepAll(SweepAll(whitelisted, party, assets[..done], refuses).whitelisted, party, assets, refuses);
            again.whitelisted == once.whitelisted && again.refused == once.refused
  {
    var partly := SweepAll(whitelisted, party, assets[..done], refuses).whitelisted;
    var once, again := SweepAll(whitelisted, party, assets, refuses), SweepAll(partly, party, assets, refuses);
    forall e ensures e in again.whitelisted <==> e in once.whitelisted {
      LeftIsRefused(whitelisted, party, assets[..done], refuses, e);
      LeftIsRefused(partly, party, assets, refuses, e);
      LeftIsRefused(whitelisted, party, assets, refuses, e);
      PrefixAmong(assets, done, e.contract);
    }
    RefusedAre(whitelisted, party, assets, refuses);
    RefusedAre(partly, party, assets, refuses);
    forall a | a in assets
      ensures (Entry(party, a.contract) in whitelisted && refuses(Entry(party, a.contract)))
           == (Entry(party, a.contract) in partly && refuses(Entry(party, a.contract)))
    {
      LeftIsRefused(whitelisted, party, assets[..done], refuses, Entry(party, a.contract));
    }
    SameFilter(assets, RefusedFrom(whitelisted, party, refuses),
               RefusedFrom(partly, party, refuses));
  }

  lemma PrefixAmong(assets: seq<StoredAsset>, done: nat, contract: Address)
    requires done <= |assets|
    ensures Among(assets[..done], contract) ==> Among(assets, contract)
  {
    if i :| 0 <= i < done && assets[..done][i].contract == contract {
      assert assets[i].contract == contract;
    }
  }

  /** A sweep after a whole sweep removes nothing and changes nothing. */
  lemma RepeatChangesNothing(whitelisted: set<Entry>, party: Address, assets: seq<StoredAsset>, refuses: Policy)
    ensures var once := SweepAll(whitelisted, party, assets, refuses);
            var again := SweepAll(once.whitelisted, party, assets, refuses);
            again.whitelisted == once.whitelisted && again.removed == [] && again.refused == once.refused
  {
    RetryConverges(whitelisted, party, assets, refuses, |assets|);
    assert assets[..|assets|] == assets;
    RemovedAreGone(SweepAll(whitelisted, party, assets, refuses).whitelisted, party, assets, refuses);
  }

  /* ---- the service ---- */

  datatype Outcome = Removed(count: nat) | RefusedFor(ids: seq<string>, removed: nat) | Fault(error: string)

  function Ids(assets: seq<StoredAsset>): seq<string> { seq(|assets|, i requires 0 <= i < |assets| => assets[i].id) }

  function Report(s: Sweep): Outcome { if s.refused != [] then RefusedFor(Ids(s.refused), |s.removed|) else Removed(|s.removed|) }

  class InvestorWhitelistService {
    const lookups: Lookups
    var whitelisted: set<Entry>      // on the chain, by the tokens themselves

    constructor (lookups: Lookups, whitelisted: set<Entry>)
      ensures this.lookups == lookups && this.whitelisted == whitelisted
    {
      this.lookups, this.whitelisted := lookups, whitelisted;
    }

    method ListCapable() returns (capable: seq<StoredAsset>)
      ensures capable == CapableAssets(lookups, lookups.assets)
    {
      capable := [];
      for i := 0 to |lookups.assets|
        invariant capable == CapableAssets(lookups, lookups.assets[..i])
      {
        assert lookups.assets[..i + 1][..i] == lookups.assets[..i];
        var key := ToUpper(lookups.assets[i].standard);
        if key in lookups.standards && lookups.standards[key] { capable := capable + [lookups.assets[i]]; }
      }
      assert lookups.assets[..|lookups.assets|] == lookups.assets;
    }

    /** The assets an operation is about. */
    method Assets(assetId: Option<string>) returns (assets: Result<seq<StoredAsset>>)
      ensures assets == Swept(lookups, assetId)
    {
      if assetId.Some? && assetId.value != "" {
        var a :- CapableAsset(lookups, assetId.value);
        return Ok([a]);
      }
      var capable := ListCapable();
      return Ok(capable);
    }

    /** `faultAt`: the asset at which a call throws, if one does. */
    method Dewhitelist(party: Party, assetId: Option<string>, refuses: Policy, faultAt: Option<nat>) returns (r: Outcome)
      modifies this
      ensures var address, assets := ResolveParty(lookups, party), Swept(lookups, assetId);
              if address.Err? || assets.Err? then r.Fault? && whitelisted == old(whitelisted)
              else
                var attempted := if faultAt.Some? && faultAt.value < |assets.value| then assets.value[..faultAt.value] else assets.value;
                var sweep := SweepAll(old(whitelisted), address.value, attempted, refuses);
                && whitelisted == sweep.whitelisted
                && (if attempted == assets.value then r == Report(sweep) else r.Fault?)
    {
      var address := ResolveParty(lookups, party);
      if address.Err? { return Fault(address.error); }
      var found := Assets(assetId);
      if found.Err? { return Fault(found.error); }
      r := Sweep(address.value, found.value, refuses, faultAt);
    }

    /** The loop over the assets found. */
    method Sweep(address: Address, assets: seq<StoredAsset>, refuses: Policy, faultAt: Option<nat>) returns (r: Outcome)
      modifies this`whitelisted
      ensures var attempted := if faultAt.Some? && faultAt.value < |assets| then assets[..faultAt.value] else assets;
              var sweep := SweepAll(old(whitelisted), address, attempted, refuses);
              && whitelisted == sweep.whitelisted
              && (if attempted == assets then r == Report(sweep) else r.Fault?)
    {
      var removed := 0;
      var refused: seq<string> := [];
      for i := 0 to |assets|
        invariant faultAt.Some? ==> i <= faultAt.value
        invariant var sweep := SweepAll(old(whitelisted), address, assets[..i], refuses);
                  whitelisted == sweep.whitelisted && removed == |sweep.removed| && refused == Ids(sweep.refused)
      {
        assert assets[..i + 1][..i] == assets[..i];
        if faultAt == Some(i) { return Fault("thrown by the standard"); }
        var e := Entry(address, assets[i].contract);
        if e !in whitelisted { continue; }
        if refuses(e) {
          refused := refused + [assets[i].id];
          continue;
        }
        whitelisted := whitelisted - {e};
        removed := removed + 1;
      }
      assert assets[..|assets|] == assets;
      if |refused| > 0 { return RefusedFor(refused, removed); }
      return Removed(removed);
    }

    /** The assets a party is whitelisted for, as the tokens tell it. */
    method GetWhitelist(party: Option<Party>, assetId: Option<string>) returns (entries: Result<seq<StoredAsset>>)
      ensures party.None? ==> entries == Ok([])
      ensures party.Some? ==>
                var address, assets := ResolveParty(lookups, party.value), Swept(lookups, assetId);
                if address.Err? || assets.Err? then entries.Err?
                else entries == Ok(Filtered(assets.value, ListedFor(whitelisted, address.value)))
    {
      if party.None? { return Ok([]); }
      var address :- ResolveParty(lookups, party.value);
      var assets :- Assets(assetId);
      var found: seq<StoredAsset> := [];
      ghost var listed := ListedFor(whitelisted, address);
      for i := 0 to |assets|
        invariant found == Filtered(assets[..i], listed)
      {
        assert assets[..i + 1][..i] == assets[..i];
        if Entry(address, assets[i].contract) in whitelisted { found := found + [assets[i]]; }
      }
      assert assets[..|assets|] == assets;
      return Ok(found);
    }
  }

  /** After a sweep the whitelist shows the refused assets and no other. */
  lemma WhitelistShowsRefused(whitelisted: set<Entry>, party: Address, assets: seq<StoredAsset>, refuses: Policy)
    ensures var s := SweepAll(whitelisted, party, assets, refuses);
            Filtered(assets, ListedFor(s.whitelisted, party)) == s.refused
  {
    var s := SweepAll(whitelisted, party, assets, refuses);
    RefusedAre(whitelisted, party, assets, refuses);
    forall a | a in assets
      ensures (Entry(party, a.contract) in s.whitelisted) == (Entry(party, a.contract) in whitelisted && refuses(Entry(party, a.contract)))
    {
      LeftIsRefused(whitelisted, party, assets, refuses, Entry(party, a.contract));
      var i :| 0 <= i < |assets| && assets[i] == a;
      assert Among(assets, a.contract);
    }
    SameFilter(assets, ListedFor(s.whitelisted, party),
               RefusedFrom(whitelisted, party, refuses));
  }
}
