/** The closure createVaultManagementFunctions returns (src/vaults.ts:89-192):
    two maps, a shared scan and a flag, updated in place between awaits. */
module VaultManagement {
  import opened Wrappers
  import opened Chain
  import opened Vaults
  import opened VaultScans

  class VaultFunctions {
    var addressLeafCache: map<Key, Details>
    var compositeLeafCache: map<Key, Details>
    var activeScan: Option<nat>
    var initialScanComplete: bool
    // the scans and callers so far, and everything scans have put out
    var scans: seq<Scan>
    var lookups: seq<Lookup>
    ghost var output: seq<Details>

    ghost function Now(): State
      reads this
    {
      State(Caches(addressLeafCache, compositeLeafCache), activeScan, initialScanComplete, scans, lookups, output)
    }

    constructor ()
      ensures Now() == Start()
    {
      addressLeafCache, compositeLeafCache, activeScan, initialScanComplete := map[], map[], None, false;
      scans, lookups, output := [], [], [];
    }

    /** rescan: at most one scan runs; later callers share it. */
    method Rescan() returns (scan: nat)
      modifies this`activeScan, this`scans
      ensures (Now(), scan) == VaultScans.Rescan(old(Now()))
    {
      if activeScan.None? {
        activeScan := Some(|scans|);
        scans := scans + [Scan([], Scanning)];
      }
      return activeScan.value;
    }

    /** The fast leaf lookup, or a rescan to wait for. */
    method LookUp(q: Query) returns (l: Lookup)
      modifies this`activeScan, this`scans
      ensures (Now(), l) == VaultScans.LookUp(old(Now()), q)
    {
      var cached := Cached(q);
      if cached.Some? { return Answered(q, cached, None); }
      var scan := Rescan();
      return Awaiting(q, Again, scan);
    }

    method Cached(q: Query) returns (cached: Option<Details>)
      ensures cached == Get(Now().caches, q)
    {
      match q {
        case ForAddress(address) =>
          var key := AddressKey(address);
          if key in addressLeafCache { return Some(addressLeafCache[key]); }
        case ForToken(deposit, token) =>
          var key := CompositeKey(deposit, token);
          if key in compositeLeafCache { return Some(compositeLeafCache[key]); }
      }
      return None;
    }

    /** getVaultIdForAddress and balance, up to their first await. */
    method AskFor(q: Query)
      modifies this`activeScan, this`scans, this`lookups
      ensures Now() == Step(old(Now()), Ask(q))
    {
      if !initialScanComplete {
        var scan := Rescan();
        lookups := lookups + [Awaiting(q, Initial, scan)];
        return;
      }
      var l := LookUp(q);
      lookups := lookups + [l];
    }

    /** scanVaults has an address in hand. */
    method Found(d: Details)
      requires Enabled(Now(), Find(d))
      modifies this`addressLeafCache, this`compositeLeafCache, this`scans, this`output
      ensures Now() == Step(old(Now()), Find(d))
    {
      var n := activeScan.value;
      scans := scans[n := scans[n].(found := scans[n].found + [d])];
      output := output + [d];
      addressLeafCache := addressLeafCache[AddressKey(d.depositAddress) := d];
      if d.assetAddress.Some? && d.assetAddress.value != "" {
        compositeLeafCache := compositeLeafCache[CompositeKey(d.depositAddress, d.assetAddress.value) := d];
      }
    }

    /** scanVaults settles; its finally clause clears the shared promise. */
    method ScanSettles(ok: bool)
      requires Enabled(Now(), Finish(ok))
      modifies this`activeScan, this`scans
      ensures Now() == Step(old(Now()), Finish(ok))
    {
      var n := activeScan.value;
      scans := scans[n := scans[n].(outcome := if ok then Complete else Broken)];
      activeScan := None;
    }

    /** A caller goes on after the scan it awaited. */
    method ResumeLookup(n: nat)
      requires Enabled(Now(), Resume(n))
      modifies this`activeScan, this`scans, this`lookups, this`initialScanComplete
      ensures Now() == Step(old(Now()), Resume(n))
    {
      var l := lookups[n];
      if scans[l.scan].outcome.Broken? {
        lookups := lookups[n := Thrown(l.q)];
        return;
      }
      if l.why == Initial {
        initialScanComplete := true;
        var next := LookUp(l.q);
        lookups := lookups[n := next];
        return;
      }
      var cached := Cached(l.q);
      lookups := lookups[n := Answered(l.q, cached, Some(l.scan))];
    }
  }
}
