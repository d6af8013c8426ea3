/**
 * The asset finder: a cache of the backend's equities keyed by sid, built
 * on first use, and the lookups over it by sid and by symbol. Splitting a
 * symbol into its company and share-class parts is done by a function
 * outside this model, so it is a parameter.
 */
module Finders {
  import opened Wrappers
  import opened Strings
  import opened Assets
  import opened Errors
  import opened OrderedDicts

  /** The asset cache, in the dictionary's order. */
  type Cache = seq<(string, Asset)>

  /** `split_delimited_symbol`: a symbol's company and share-class parts. */
  type Splitter = Option<string> -> (string, string)

  datatype FinderError =
    | Lookup(error: LiveTraderError)
    | NoneSymbol
    | CacheNotBuilt

  /** `{asset.sid: asset for asset in backend.get_equities()}` */
  function CacheOf(equities: seq<Asset>): (c: Cache)
    ensures DistinctKeys(c)
  {
    FromItems(SidItems(equities))
  }

  /** Each equity under its sid, in the backend's order. */
  function SidItems(equities: seq<Asset>): (items: seq<(string, Asset)>)
    ensures |items| == |equities|
    ensures forall i :: 0 <= i < |equities| ==> items[i] == (equities[i].sid, equities[i])
  {
    seq(|equities|, i requires 0 <= i < |equities| => (equities[i].sid, equities[i]))
  }

  /** A sid is cached exactly when some equity has it, and holds the last equity with that sid. */
  lemma CacheOfHolds(equities: seq<Asset>, sid: string)
    ensures Get(CacheOf(equities), sid).None? <==> forall i :: 0 <= i < |equities| ==> equities[i].sid != sid
    ensures forall j :: 0 <= j < |equities| && equities[j].sid == sid && (forall i :: j < i < |equities| ==> equities[i].sid != sid) ==>
      Get(CacheOf(equities), sid) == Some(equities[j])
  {
    FromItemsGet(SidItems(equities), sid);
  }

  /** The sids of `sids` that the cache lacks. */
  function Missing(cache: Cache, sids: seq<string>): set<string>
  {
    set i | 0 <= i < |sids| && Get(cache, sids[i]).None? :: sids[i]
  }

  /** The elements of a list, as a set. */
  function Elements(xs: seq<string>): set<string>
  {
    set i | 0 <= i < |xs| :: xs[i]
  }

  /** No element occurs twice. */
  predicate Distinct(xs: seq<string>)
  {
    forall i, j :: 0 <= i < j < |xs| ==> xs[i] != xs[j]
  }

  /**
   * `retrieve_all` over a built cache: without `default_none`, the missing
   * sids are collected and raised together, each once; otherwise every
   * position gets its asset, or `None` when it is missing.
   */
  method RetrieveAllIn(cache: Cache, sids: seq<string>, defaultNone: bool)
    returns (r: Result<seq<Option<Asset>>, FinderError>)
    ensures r.Err? <==> !defaultNone && Missing(cache, sids) != {}
    ensures r.Err? ==> r.error.Lookup? && r.error.error.SidsNotFound?
    ensures r.Err? && r.error.Lookup? && r.error.error.SidsNotFound? ==>
      Elements(r.error.error.sids) == Missing(cache, sids) && Distinct(r.error.error.sids)
    ensures r.Ok? ==> |r.value| == |sids|
    ensures r.Ok? ==> forall i :: 0 <= i < |sids| ==> r.value[i] == Get(cache, sids[i])
  {
    var failures, hits := CollectHits(cache, sids, defaultNone);
    if |failures| > 0 {
      var listed := ListOf(failures);
      return Err(Lookup(SidsNotFound(listed)));
    }
    var out: seq<Option<Asset>> := [];
    for i := 0 to |sids|
      invariant |out| == i
      invariant forall j :: 0 <= j < i ==> out[j] == Get(cache, sids[j])
    {
      out := out + [hits[sids[i]]];
    }
    return Ok(out);
  }

  /**
   * The first loop of `retrieve_all`: the hits by sid, `None` for a missing
   * sid under `default_none`, and the missing sids otherwise.
   */
  method CollectHits(cache: Cache, sids: seq<string>, defaultNone: bool)
    returns (failures: set<string>, hits: map<string, Option<Asset>>)
    ensures failures == if defaultNone then {} else Missing(cache, sids)
    ensures failures == {} ==> forall j :: 0 <= j < |sids| ==> sids[j] in hits && hits[sids[j]] == Get(cache, sids[j])
  {
    failures := {};
    hits := map[];
    for i := 0 to |sids|
      invariant failures == (if defaultNone then {} else Missing(cache, sids[..i]))
      invariant forall j :: 0 <= j < i && (defaultNone || Get(cache, sids[j]).Some?) ==>
        sids[j] in hits && hits[sids[j]] == Get(cache, sids[j])
    {
      MissingSnoc(cache, sids, i);
      var found := Get(cache, sids[i]);
      if found.Some? {
        hits := hits[sids[i] := found];
      } else if !defaultNone {
        failures := failures + {sids[i]};
      } else {
        hits := hits[sids[i] := None];
      }
    }
    assert sids[..|sids|] == sids;
    assert forall j :: 0 <= j < |sids| && Get(cache, sids[j]).None? ==> sids[j] in Missing(cache, sids);
  }

  /** One more sid adds itself to the missing ones exactly when the cache lacks it. */
  lemma MissingSnoc(cache: Cache, sids: seq<string>, i: nat)
    requires i < |sids|
    ensures Missing(cache, sids[..i + 1]) == Missing(cache, sids[..i]) + (if Get(cache, sids[i]).None? then {sids[i]} else {})
  {
    assert forall j :: 0 <= j < i ==> sids[..i + 1][j] == sids[..i][j];
    assert sids[..i + 1][i] == sids[i];
  }

  /** `list(failures)`: the elements of a set, each once, in some order. */
  method ListOf(s: set<string>) returns (xs: seq<string>)
    ensures Elements(xs) == s && Distinct(xs) && |xs| == |s|
  {
    xs := [];
    var todo := s;
    while todo != {}
      invariant todo <= s
      invariant Elements(xs) == s - todo && Distinct(xs) && |xs| + |todo| == |s|
      decreases todo
    {
      var x :| x in todo;
      assert x !in Elements(xs);
      ElementsSnoc(xs, x);
      xs := xs + [x];
      todo := todo - {x};
    }
  }

  /** `retrieve_asset` over a built cache: the cached asset, or `SidsNotFound` naming the sid. */
  function RetrieveAssetIn(cache: Cache, sid: string): (r: Result<Asset, FinderError>)
    ensures r.Ok? <==> Get(cache, sid).Some?
    ensures r.Ok? ==> r.value == Get(cache, sid).value && r.value in Values(cache)
    ensures r.Err? ==> r.error == Lookup(SidsNotFound([sid]))
  {
    match Get(cache, sid)
    case None => Err(Lookup(SidsNotFound([sid])))
    case Some(a) =>
      var i :| 0 <= i < |cache| && cache[i] == (sid, a);
      assert Values(cache)[i] == a;
      Ok(a)
  }

  /** `retrieve_equities` over a built cache: a map over exactly the given sids, or `EquitiesNotFound` naming all of them. */
  function RetrieveEquitiesIn(cache: Cache, sids: seq<string>): (r: Result<map<string, Asset>, FinderError>)
    ensures r.Err? <==> Missing(cache, sids) != {}
    ensures r.Err? ==> r.error == Lookup(EquitiesNotFound(sids))
    ensures r.Ok? ==> r.value.Keys == Elements(sids)
    ensures r.Ok? ==> forall k :: k in r.value ==> Get(cache, k) == Some(r.value[k])
  {
    if exists i :: 0 <= i < |sids| && Get(cache, sids[i]).None? then
      var i :| 0 <= i < |sids| && Get(cache, sids[i]).None?;
      assert sids[i] in Missing(cache, sids);
      Err(Lookup(EquitiesNotFound(sids)))
    else
      assert forall k :: k in Elements(sids) ==> Get(cache, k).Some?;
      Ok(map k | k in Elements(sids) :: Get(cache, k).value)
  }

  /** `symbol_ownership_map`: each cached asset under its split symbol, a later asset winning. */
  function Ownership(cache: Cache, split: Splitter): (own: seq<((string, string), Asset)>)
    ensures DistinctKeys(own)
  {
    FromItems(OwnerItems(cache, split))
  }

  /** Each cached asset under its split symbol, in the cache's order. */
  function OwnerItems(cache: Cache, split: Splitter): (items: seq<((string, string), Asset)>)
    ensures |items| == |cache|
    ensures forall i :: 0 <= i < |cache| ==> items[i] == (split(cache[i].1.symbol), cache[i].1)
  {
    seq(|cache|, i requires 0 <= i < |cache| => (split(cache[i].1.symbol), cache[i].1))
  }

  /** `fuzzy_symbol_ownership_map`: the ownership map with the two parts of each key joined. */
  function FuzzyOwnership(cache: Cache, split: Splitter): seq<(string, Asset)>
  {
    FromItems(FuzzyItems(Ownership(cache, split)))
  }

  /** Each owner under its joined key, in the ownership map's order. */
  function FuzzyItems(own: seq<((string, string), Asset)>): (items: seq<(string, Asset)>)
    ensures |items| == |own|
    ensures forall i :: 0 <= i < |own| ==> items[i] == (own[i].0.0 + own[i].0.1, own[i].1)
  {
    seq(|own|, i requires 0 <= i < |own| => (own[i].0.0 + own[i].0.1, own[i].1))
  }

  /** `_lookup_symbol_strict`: the asset owning the split symbol, or `SymbolNotFound`. */
  function LookupStrict(cache: Cache, split: Splitter, symbol: string): (r: Result<Asset, FinderError>)
    ensures r.Err? ==> r.error == Lookup(SymbolNotFound(symbol))
    ensures r.Ok? ==> Get(Ownership(cache, split), split(Some(symbol))) == Some(r.value)
  {
    match Get(Ownership(cache, split), split(Some(symbol)))
    case None => Err(Lookup(SymbolNotFound(symbol)))
    case Some(a) => Ok(a)
  }

  /** `_lookup_symbol_fuzzy`: the symbol uppercased, split and joined again, looked up in the fuzzy map. */
  function LookupFuzzy(cache: Cache, split: Splitter, symbol: string): (r: Result<Asset, FinderError>)
    ensures r.Err? ==> r.error == Lookup(SymbolNotFound(Upper(symbol)))
    ensures r.Ok? ==> var parts := split(Some(Upper(symbol)));
      Get(FuzzyOwnership(cache, split), parts.0 + parts.1) == Some(r.value)
  {
    var upper := Upper(symbol);
    var parts := split(Some(upper));
    match Get(FuzzyOwnership(cache, split), parts.0 + parts.1)
    case None => Err(Lookup(SymbolNotFound(upper)))
    case Some(a) => Ok(a)
  }

  /** `lookup_symbol`: `None` is refused, then the fuzzy or the strict lookup. */
  function LookupSymbol(cache: Cache, split: Splitter, symbol: Option<string>, fuzzy: bool): (r: Result<Asset, FinderError>)
    ensures symbol.None? ==> r == Err(NoneSymbol)
  {
    if symbol.None? then Err(NoneSymbol)
    else if fuzzy then LookupFuzzy(cache, split, symbol.value)
    else LookupStrict(cache, split, symbol.value)
  }

  /**
   * A strict lookup succeeds exactly when some cached asset's symbol splits
   * like the one asked for, and then returns such an asset; a miss names
   * the symbol.
   */
  lemma LookupStrictOwner(cache: Cache, split: Splitter, symbol: string)
    ensures LookupStrict(cache, split, symbol).Ok? <==>
      exists i :: 0 <= i < |cache| && split(cache[i].1.symbol) == split(Some(symbol))
    ensures LookupStrict(cache, split, symbol).Ok? ==>
      var a := LookupStrict(cache, split, symbol).value;
      split(a.symbol) == split(Some(symbol)) && exists i :: 0 <= i < |cache| && cache[i].1 == a
    ensures LookupStrict(cache, split, symbol).Err? ==> LookupStrict(cache, split, symbol).error == Lookup(SymbolNotFound(symbol))
  {
    var items := OwnerItems(cache, split);
    var key := split(Some(symbol));
    FromItemsGet(items, key);
    if exists i :: 0 <= i < |cache| && split(cache[i].1.symbol) == key {
      var i :| 0 <= i < |cache| && split(cache[i].1.symbol) == key;
      assert items[i].0 == key;
    }
    var g := Get(Ownership(cache, split), key);
    if g.Some? {
      var j :| 0 <= j < |Ownership(cache, split)| && Ownership(cache, split)[j] == (key, g.value);
      OwnedFromItems(items, j);
    }
  }

  /** Every entry of a dictionary built from items is one of the items. */
  lemma {:induction false} OwnedFromItems<K, V>(items: seq<(K, V)>, j: nat)
    requires j < |FromItems(items)|
    ensures exists i :: 0 <= i < |items| && items[i] == FromItems(items)[j]
  {
    var init := items[..|items| - 1];
    var last := items[|items| - 1];
    var d := FromItems(init);
    var e := FromItems(items)[j];
    if e != last {
      assert j < |d| && (d[j].0 == last.0 || d[j] == e);
      if d[j] == e {
        OwnedFromItems(init, j);
        var i :| 0 <= i < |init| && init[i] == d[j];
        assert items[i] == init[i];
      }
    } else {
      assert items[|items| - 1] == e;
    }
  }

  /**
   * A fuzzy lookup returns an asset whose two symbol parts, joined, are
   * those of the uppercased symbol; a miss names the uppercased symbol.
   */
  lemma LookupFuzzyOwner(cache: Cache, split: Splitter, symbol: string)
    ensures var r := LookupFuzzy(cache, split, symbol);
      r.Ok? ==>
        var parts := split(Some(Upper(symbol)));
        var own := split(r.value.symbol);
        own.0 + own.1 == parts.0 + parts.1 && exists i :: 0 <= i < |cache| && cache[i].1 == r.value
    ensures LookupFuzzy(cache, split, symbol).Err? ==>
      LookupFuzzy(cache, split, symbol).error == Lookup(SymbolNotFound(Upper(symbol)))
  {
    var r := LookupFuzzy(cache, split, symbol);
    if r.Ok? {
      var parts := split(Some(Upper(symbol)));
      var own := Ownership(cache, split);
      var fitems := FuzzyItems(own);
      var fuzzy := FuzzyOwnership(cache, split);
      var j :| 0 <= j < |fuzzy| && fuzzy[j] == (parts.0 + parts.1, r.value);
      OwnedFromItems(fitems, j);
      var k :| 0 <= k < |fitems| && fitems[k] == fuzzy[j];
      var items := OwnerItems(cache, split);
      OwnedFromItems(items, k);
      var m :| 0 <= m < |items| && items[m] == own[k];
    }
  }

  /** Some symbol's lookup fails with `e`, and every symbol before it is found. */
  predicate FailsFirstAt(cache: Cache, split: Splitter, symbols: seq<string>, fuzzy: bool, e: FinderError)
  {
    exists i :: 0 <= i < |symbols| && LookupSymbol(cache, split, Some(symbols[i]), fuzzy) == Err(e) && FoundAll(cache, split, symbols[..i], fuzzy)
  }

  /** Every symbol's lookup succeeds. */
  predicate FoundAll(cache: Cache, split: Splitter, symbols: seq<string>, fuzzy: bool)
  {
    forall j :: 0 <= j < |symbols| ==> LookupSymbol(cache, split, Some(symbols[j]), fuzzy).Ok?
  }

  /**
   * `lookup_symbols` over a built cache: one result per symbol, in order,
   * each the lookup of that symbol; a symbol seen before is taken from the
   * memo, so `looked` lists the symbols actually looked up, each once.
   */
  method LookupSymbolsIn(cache: Cache, split: Splitter, symbols: seq<string>, fuzzy: bool)
    returns (r: Result<seq<Asset>, FinderError>, looked: seq<string>)
    ensures Distinct(looked)
    ensures r.Ok? ==> |r.value| == |symbols| && Elements(looked) == Elements(symbols)
    ensures r.Ok? ==> forall i :: 0 <= i < |symbols| ==> LookupSymbol(cache, split, Some(symbols[i]), fuzzy) == Ok(r.value[i])
    ensures r.Err? ==> FailsFirstAt(cache, split, symbols, fuzzy, r.error)
  {
    r, looked := MemoLookups(symbols, s => LookupSymbol(cache, split, Some(s), fuzzy));
    if r.Err? {
      var i :| 0 <= i < |symbols| && LookupSymbol(cache, split, Some(symbols[i]), fuzzy) == Err(r.error) &&
        forall j :: 0 <= j < i ==> LookupSymbol(cache, split, Some(symbols[j]), fuzzy).Ok?;
      assert FoundAll(cache, split, symbols[..i], fuzzy);
    }
  }

  /**
   * The memoised loop of `lookup_symbols`, for any lookup: the first
   * failure is raised; each symbol is looked up once, on first sight.
   */
  method MemoLookups<E>(symbols: seq<string>, look: string -> Result<Asset, E>)
    returns (r: Result<seq<Asset>, E>, looked: seq<string>)
    ensures Distinct(looked)
    ensures r.Ok? ==> |r.value| == |symbols| && Elements(looked) == Elements(symbols)
    ensures r.Ok? ==> forall i :: 0 <= i < |symbols| ==> look(symbols[i]) == Ok(r.value[i])
    ensures r.Err? ==> exists i :: (0 <= i < |symbols| && look(symbols[i]) == Err(r.error) &&
      forall j :: 0 <= j < i ==> look(symbols[j]).Ok?)
  {
    var memo: map<string, Asset> := map[];
    var out: seq<Asset> := [];
    looked := [];
    for i := 0 to |symbols|
      invariant |out| == i
      invariant forall j :: 0 <= j < i ==> look(symbols[j]) == Ok(out[j])
      invariant forall s :: s in memo ==> look(s) == Ok(memo[s])
      invariant memo.Keys == Elements(looked)
      invariant Elements(looked) == Elements(symbols[..i])
      invariant Distinct(looked)
    {
      var sym := symbols[i];
      ElementsSnoc(symbols[..i], sym);
      assert symbols[..i + 1] == symbols[..i] + [sym];
      if sym in memo {
        out := out + [memo[sym]];
      } else {
        var found := look(sym);
        if found.Err? {
          return Err(found.error), looked;
        }
        memo := memo[sym := found.value];
        ElementsSnoc(looked, sym);
        looked := looked + [sym];
        out := out + [found.value];
      }
    }
    assert symbols[..|symbols|] == symbols;
    return Ok(out), looked;
  }

  /** Appending an element adds it to the elements. */
  lemma ElementsSnoc(xs: seq<string>, x: string)
    ensures Elements(xs + [x]) == Elements(xs) + {x}
  {
    assert forall i :: 0 <= i < |xs| ==> (xs + [x])[i] == xs[i];
    assert (xs + [x])[|xs|] == x;
  }

  /** The test's finder: one equity, found by its sid, and an unknown sid refused. */
  lemma OneEquityFinder(asset: Asset)
    requires asset.sid == "asset-id"
    ensures RetrieveAssetIn(CacheOf([asset]), "asset-id") == Ok(asset)
    ensures RetrieveAssetIn(CacheOf([asset]), "invalid") == Err(Lookup(SidsNotFound(["invalid"])))
  {
    CacheOfHolds([asset], "asset-id");
    CacheOfHolds([asset], "invalid");
  }

  /** The finder, with its lazily built cache. */
  class AssetFinder {
    /** `asset_cache`, absent until first used and after `clear_cache`. */
    var assetCache: Option<Cache>

    constructor()
      ensures assetCache.None?
    {
      assetCache := None;
    }

    /** `_asset_cache`: the cache as it is, or built now from the backend's equities and kept. */
    method GetCache(equities: seq<Asset>) returns (cache: Cache)
      modifies this
      ensures cache == (if old(assetCache).Some? then old(assetCache).value else CacheOf(equities))
      ensures assetCache == Some(cache)
    {
      if assetCache.None? {
        assetCache := Some(CacheOf(equities));
      }
      cache := assetCache.value;
    }

    /** `clear_cache`: the cache is dropped; dropping an absent cache fails. */
    method ClearCache() returns (r: Result<(), FinderError>)
      modifies this
      ensures old(assetCache).None? ==> r == Err(CacheNotBuilt)
      ensures old(assetCache).Some? ==> r.Ok?
      ensures assetCache.None?
    {
      if assetCache.None? {
        return Err(CacheNotBuilt);
      }
      assetCache := None;
      return Ok(());
    }

    method RetrieveAll(sids: seq<string>, defaultNone: bool, equities: seq<Asset>)
      returns (r: Result<seq<Option<Asset>>, FinderError>)
      modifies this
      ensures assetCache.Some? && assetCache == (if old(assetCache).Some? then old(assetCache) else Some(CacheOf(equities)))
      ensures r.Err? <==> !defaultNone && Missing(assetCache.value, sids) != {}
      ensures r.Ok? ==> |r.value| == |sids| && forall i :: 0 <= i < |sids| ==> r.value[i] == Get(assetCache.value, sids[i])
    {
      var cache := GetCache(equities);
      r := RetrieveAllIn(cache, sids, defaultNone);
    }

    method RetrieveAsset(sid: string, equities: seq<Asset>) returns (r: Result<Asset, FinderError>)
      modifies this
      ensures assetCache.Some? && assetCache == (if old(assetCache).Some? then old(assetCache) else Some(CacheOf(equities)))
      ensures r == RetrieveAssetIn(assetCache.value, sid)
    {
      var cache := GetCache(equities);
      r := RetrieveAssetIn(cache, sid);
    }

    method RetrieveEquities(sids: seq<string>, equities: seq<Asset>) returns (r: Result<map<string, Asset>, FinderError>)
      modifies this
      ensures assetCache.Some? && assetCache == (if old(assetCache).Some? then old(assetCache) else Some(CacheOf(equities)))
      ensures r == RetrieveEquitiesIn(assetCache.value, sids)
    {
      var cache := GetCache(equities);
      r := RetrieveEquitiesIn(cache, sids);
    }

    /** `lookup_symbol`: a `None` symbol is refused before the cache is touched. */
    method LookupSymbolOf(symbol: Option<string>, fuzzy: bool, split: Splitter, equities: seq<Asset>)
      returns (r: Result<Asset, FinderError>)
      modifies this
      ensures symbol.None? ==> r == Err(NoneSymbol) && assetCache == old(assetCache)
      ensures symbol.Some? ==>
        assetCache.Some? && assetCache == (if old(assetCache).Some? then old(assetCache) else Some(CacheOf(equities)))
        && r == LookupSymbol(assetCache.value, split, symbol, fuzzy)
    {
      if symbol.None? {
        return Err(NoneSymbol);
      }
      var cache := GetCache(equities);
      r := LookupSymbol(cache, split, symbol, fuzzy);
    }

    method LookupSymbols(symbols: seq<string>, fuzzy: bool, split: Splitter, equities: seq<Asset>)
      returns (r: Result<seq<Asset>, FinderError>)
      modifies this
      ensures assetCache.Some? && assetCache == (if old(assetCache).Some? then old(assetCache) else Some(CacheOf(equities)))
      ensures r.Ok? ==> |r.value| == |symbols|
      ensures r.Ok? ==> forall i :: 0 <= i < |symbols| ==> LookupSymbol(assetCache.value, split, Some(symbols[i]), fuzzy) == Ok(r.value[i])
      ensures r.Err? ==> FailsFirstAt(assetCache.value, split, symbols, fuzzy, r.error)
    {
      var cache := GetCache(equities);
      var looked;
      r, looked := LookupSymbolsIn(cache, split, symbols, fuzzy);
    }

    /** `sids`: the cached sids, in the cache's order, each once. */
    method Sids(equities: seq<Asset>) returns (sids: seq<string>)
      modifies this
      ensures assetCache.Some? && assetCache == (if old(assetCache).Some? then old(assetCache) else Some(CacheOf(equities)))
      ensures sids == Keys(assetCache.value)
    {
      var cache := GetCache(equities);
      sids := Keys(cache);
    }
  }

  /** The cached sids are distinct, and each one retrieves its asset. */
  lemma SidsRetrieve(cache: Cache, i: nat)
    requires DistinctKeys(cache) && i < |cache|
    ensures Distinct(Keys(cache))
    ensures RetrieveAssetIn(cache, Keys(cache)[i]) == Ok(cache[i].1)
  {
    GetEntry(cache, i);
  }
}
