/** Vault discovery (src/vaults.ts): paginated fetching, and the two leaf caches
    a scan fills. */
module Vaults {
  import opened Wrappers
  import opened Chain

  /* ---- pagination ---- */

  datatype Page<T> = Page(items: seq<T>, after: Option<string>)

  /** The last page asked for: an empty one, or one without a successor. */
  predicate Stops<T>(p: Page<T>) { p.items == [] || p.after.None? }

  /** `pages` is what the server has from a cursor on, up to the stop condition:
      each page under the cursor of the one before, until a page stops or there
      is no response. */
  ghost predicate Chained<T(!new)>(server: Option<string> -> Option<Page<T>>, after: Option<string>, pages: seq<Page<T>>)
    decreases |pages|
  {
    match server(after)
    case None => pages == []
    case Some(page) => pages != [] && pages[0] == page && if Stops(page) then |pages| == 1 else Chained(server, page.after, pages[1..])
  }

  function Concat<T>(pages: seq<Page<T>>): seq<T> {
    if pages == [] then [] else pages[0].items + Concat(pages[1..])
  }

  /** autoPaginate collects exactly the pages up to the stop condition. */
  method AutoPaginate<T(!new)>(server: Option<string> -> Option<Page<T>>, ghost pages: seq<Page<T>>) returns (collected: seq<T>)
    requires Chained(server, None, pages)
    ensures collected == Concat(pages)
  {
    collected := [];
    var after: Option<string> := None;
    ghost var left := pages;
    while true
      invariant Chained(server, after, left)
      invariant collected + Concat(left) == Concat(pages)
      decreases |left|
    {
      var response := server(after);
      if response.None? { break; }
      after := response.value.after;
      var extracted := response.value.items;
      collected := collected + extracted;
      assert collected + Concat(left[1..]) == Concat(pages);
      if extracted == [] || after.None? {
        assert left[1..] == [];
        break;
      }
      left := left[1..];
    }
  }

  /* ---- the leaf caches ---- */

  datatype Details = Details(vaultId: string, assetId: string, depositAddress: string, assetAddress: Option<string>)
  datatype Key = Key(text: string)

  function AddressKey(address: string): Key { Key(ToLower(address)) }

  function CompositeKey(deposit: string, token: string): Key { Key(ToLower(deposit) + (":" + ToLower(token))) }

  function AddressKeyOf(d: Details): Key { AddressKey(d.depositAddress) }

  /** Only tokens with a contract get a composite key. */
  function CompositeKeyOf(d: Details): Option<Key> {
    if d.assetAddress.Some? && d.assetAddress.value != "" then Some(CompositeKey(d.depositAddress, d.assetAddress.value)) else None
  }

  datatype Caches = Caches(address: map<Key, Details>, composite: map<Key, Details>)

  function Remember(c: Caches, d: Details): Caches {
    Caches(c.address[AddressKeyOf(d) := d], if CompositeKeyOf(d).Some? then c.composite[CompositeKeyOf(d).value := d] else c.composite)
  }

  function RememberAll(output: seq<Details>): Caches {
    if output == [] then Caches(map[], map[]) else Remember(RememberAll(output[..|output| - 1]), output[|output| - 1])
  }

  /** What a lookup is for. */
  datatype Query = ForAddress(address: string) | ForToken(deposit: string, token: string)

  function Get(c: Caches, q: Query): Option<Details> {
    match q
    case ForAddress(address) => if AddressKey(address) in c.address then Some(c.address[AddressKey(address)]) else None
    case ForToken(deposit, token) =>
      if CompositeKey(deposit, token) in c.composite then Some(c.composite[CompositeKey(deposit, token)]) else None
  }

  /** The entry is about what is asked for, addresses compared without case. */
  predicate Answers(d: Details, q: Query) {
    match q
    case ForAddress(address) => ToLower(d.depositAddress) == ToLower(address)
    case ForToken(deposit, token) =>
      && d.assetAddress.Some? && d.assetAddress.value != ""
      && ToLower(d.depositAddress) == ToLower(deposit) && ToLower(d.assetAddress.value) == ToLower(token)
  }

  /** Linear search, the latest entry first. */
  function Search(output: seq<Details>, q: Query): Option<Details> {
    if output == [] then None
    else if Answers(output[|output| - 1], q) then Some(output[|output| - 1])
    else Search(output[..|output| - 1], q)
  }

  predicate NoColon(s: string) { ':' !in s }

  predicate PlainAddresses(output: seq<Details>, q: Query) {
    && (forall i :: 0 <= i < |output| ==> NoColon(output[i].depositAddress))
    && (q.ForToken? ==> NoColon(q.deposit))
  }

  lemma LowerKeepsColons(s: string)
    requires NoColon(s)
    ensures NoColon(ToLower(s))
  {
    forall i | 0 <= i < |s| ensures ToLower(s)[i] != ':' {
      assert s[i] in s;
    }
  }

  lemma ColonAt(a: string, b: string)
    requires NoColon(a)
    ensures (a + (":" + b))[|a|] == ':' && forall j :: 0 <= j < |a| ==> (a + (":" + b))[j] != ':'
  {
    forall j | 0 <= j < |a| ensures (a + (":" + b))[j] != ':' {
      assert a[j] in a;
    }
  }

  lemma SplitsAtColon(a: string, b: string, c: string, d: string)
    requires NoColon(a) && NoColon(c) && a + (":" + b) == c + (":" + d)
    ensures a == c && b == d
  {
    var whole := a + (":" + b);
    ColonAt(a, b);
    ColonAt(c, d);
    assert |a| == |c|;
    assert a == whole[..|a|] && c == whole[..|c|];
    assert b == whole[|a| + 1..] && d == whole[|c| + 1..];
  }

  /** Composite keys of colon-free deposit addresses name one pair only. */
  lemma CompositeKeysAreInjective(deposit: string, token: string, deposit': string, token': string)
    requires NoColon(deposit) && NoColon(deposit')
    ensures CompositeKey(deposit, token) == CompositeKey(deposit', token')
       <==> ToLower(deposit) == ToLower(deposit') && ToLower(token) == ToLower(token')
  {
    LowerKeepsColons(deposit);
    LowerKeepsColons(deposit');
    if CompositeKey(deposit, token) == CompositeKey(deposit', token') {
      SplitsAtColon(ToLower(deposit), ToLower(token), ToLower(deposit'), ToLower(token'));
    }
  }

  lemma KeyedBy(d: Details, q: Query)
    requires NoColon(d.depositAddress) && (q.ForToken? ==> NoColon(q.deposit))
    ensures q.ForAddress? ==> (Answers(d, q) <==> AddressKeyOf(d) == AddressKey(q.address))
    ensures q.ForToken? ==> (Answers(d, q) <==> CompositeKeyOf(d) == Some(CompositeKey(q.deposit, q.token)))
  {
    if q.ForToken? && CompositeKeyOf(d).Some? {
      CompositeKeysAreInjective(d.depositAddress, d.assetAddress.value, q.deposit, q.token);
    }
  }

  /** Each cache answers what a linear search through everything ever scanned
      answers: the latest matching entry. */
  lemma {:induction false} CachesAreSearches(output: seq<Details>, q: Query)
    requires PlainAddresses(output, q)
    ensures Get(RememberAll(output), q) == Search(output, q)
  {
    if output != [] {
      CachesAreSearches(output[..|output| - 1], q);
      KeyedBy(output[|output| - 1], q);
    }
  }

  /** Without a matching entry there is no answer; with one there is. */
  lemma {:induction false} SearchFinds(output: seq<Details>, q: Query)
    ensures Search(output, q).Some? <==> exists i :: 0 <= i < |output| && Answers(output[i], q)
    ensures Search(output, q).Some? ==> Answers(Search(output, q).value, q)
  {
    if output != [] {
      var init := output[..|output| - 1];
      SearchFinds(init, q);
      assert output == init + [output[|output| - 1]];
      if i :| 0 <= i < |init| && Answers(init[i], q) {
        assert Answers(output[i], q);
      }
    }
  }
}
