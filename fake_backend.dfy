/**
 * The fake backend of the test harness: it keeps positions and orders in
 * memory, numbers orders by a sequence, and caches the real bars it
 * fetches from a proxy backend, per frequency and asset. The current time
 * is the fake clock's and is passed in.
 */
module FakeBackends {
  import opened Wrappers
  import opened Strings
  import opened Assets
  import opened Orders
  import opened OrderRules
  import opened OrderedDicts
  import opened BarFrames
  import opened DataPortals
  import Brokers

  // ---- Positions

  /** A position as `set_position` writes it. */
  datatype FakePosition = FakePosition(
    asset: Asset, amount: int, costBasis: real, lastSalePrice: Option<real>, lastSaleDate: Option<int>)

  /** What `set_position` is given: an asset, or a symbol to look up. */
  datatype Target = GivenAsset(asset: Asset) | GivenSymbol(symbol: string)

  /**
   * The asset a target names: itself, or what `api.symbol` finds
   * (`lookup`), `None` when the symbol is unknown and the lookup raises.
   */
  function TargetAsset(t: Target, lookup: string -> Option<Asset>): (r: Option<Asset>)
    ensures t.GivenAsset? ==> r == Some(t.asset)
    ensures t.GivenSymbol? ==> r == lookup(t.symbol)
  {
    match t
    case GivenAsset(a) => Some(a)
    case GivenSymbol(s) => lookup(s)
  }

  /**
   * `set_position`: the asset's entry is replaced by (or, for a new asset,
   * appended as) a position with exactly the given fields; no other entry
   * changes. An unknown symbol raises and changes nothing.
   */
  function SetPositionIn(ps: seq<(Asset, FakePosition)>, t: Target, amount: int, costBasis: real,
                         lastSalePrice: Option<real>, lastSaleDate: Option<int>,
                         lookup: string -> Option<Asset>): (r: Option<seq<(Asset, FakePosition)>>)
    requires DistinctKeys(ps)
    ensures r.None? <==> TargetAsset(t, lookup).None?
    ensures r.Some? ==> var a := TargetAsset(t, lookup).value;
      && DistinctKeys(r.value)
      && Get(r.value, a) == Some(FakePosition(a, amount, costBasis, lastSalePrice, lastSaleDate))
      && forall b :: b != a ==> Get(r.value, b) == Get(ps, b)
  {
    match TargetAsset(t, lookup)
    case None => None
    case Some(a) =>
      var pos := FakePosition(a, amount, costBasis, lastSalePrice, lastSaleDate);
      assert forall b :: Get(Put(ps, a, pos), b) == (if b == a then Some(pos) else Get(ps, b)) by {
        forall b ensures Get(Put(ps, a, pos), b) == (if b == a then Some(pos) else Get(ps, b)) {
          PutGet(ps, a, pos, b);
        }
      }
      Some(Put(ps, a, pos))
  }

  /** Setting a position twice in a row leaves the second. */
  lemma SetPositionTwice(ps: seq<(Asset, FakePosition)>, a: Asset, amount: int, costBasis: real, amount': int,
                         costBasis': real, lookup: string -> Option<Asset>)
    requires DistinctKeys(ps)
    ensures var once := SetPositionIn(ps, GivenAsset(a), amount, costBasis, None, None, lookup).value;
      && SetPositionIn(once, GivenAsset(a), amount', costBasis', None, None, lookup) ==
         SetPositionIn(ps, GivenAsset(a), amount', costBasis', None, None, lookup)
  {
    PutTwice(ps, a, FakePosition(a, amount, costBasis, None, None), FakePosition(a, amount', costBasis', None, None));
  }

  // ---- Orders

  /** Order numbers are positive, at most the sequence, and never repeat. */
  predicate Numbered(orders: seq<(nat, Order)>, orderSeq: nat)
  {
    DistinctKeys(orders) && forall i :: 0 <= i < |orders| ==> 0 < orders[i].0 <= orderSeq
  }

  /**
   * The order `order` creates: numbered by the incremented sequence, placed
   * now (`get_last_traded_dt` is the clock's time), with the style's prices
   * unless they are zero, nothing filled, open. A zero amount is accepted.
   */
  function Placed(orderSeq: nat, asset: Asset, amount: int, style: ExecutionStyle, now: int): (o: Order)
    ensures o.id == NatToString(orderSeq + 1) && o.asset == asset && o.amount == amount && o.dt == now
    ensures o.limit == Brokers.NonZero(LimitOf(style)) && o.stop == Brokers.NonZero(StopOf(style))
    ensures o.filled == 0 && o.rawStatus == Open
  {
    NewOrder(now, asset, amount, Brokers.NonZero(StopOf(style)), Brokers.NonZero(LimitOf(style)), 0, 0.0,
             Some(NatToString(orderSeq + 1)), "")
  }

  /** Storing the new order under the next number appends it, and the numbering stays sound. */
  lemma PlaceAppends(orders: seq<(nat, Order)>, orderSeq: nat, o: Order)
    requires Numbered(orders, orderSeq)
    ensures Get(orders, orderSeq + 1).None?
    ensures Put(orders, orderSeq + 1, o) == orders + [(orderSeq + 1, o)]
    ensures Numbered(orders + [(orderSeq + 1, o)], orderSeq + 1)
    ensures Get(orders + [(orderSeq + 1, o)], orderSeq + 1) == Some(o)
  {
    PutGet(orders, orderSeq + 1, o, orderSeq + 1);
  }

  /** Two orders never share a number, whatever their amounts. */
  lemma PlacedDistinct(orderSeq: nat, asset: Asset, amount: int, style: ExecutionStyle, now: int,
                       asset': Asset, amount': int, style': ExecutionStyle, now': int)
    ensures Placed(orderSeq, asset, amount, style, now).id != Placed(orderSeq + 1, asset', amount', style', now').id
  {
    NatToStringValue(orderSeq + 1);
    NatToStringValue(orderSeq + 2);
  }

  /** Cancelling keeps the numbering sound. */
  lemma CancelNumbered(orders: seq<(nat, Order)>, orderSeq: nat, id: nat)
    requires Numbered(orders, orderSeq)
    ensures Numbered(Discard(orders, id), orderSeq)
  {
    var r := Discard(orders, id);
    forall i | 0 <= i < |r| ensures 0 < r[i].0 <= orderSeq {
      if Get(orders, id).Some? {
        assert r[i] in orders;
      }
    }
  }

  // ---- The bar cache

  /** The frequencies the cache has a table for. */
  const Frequencies: set<string> := {"1d", "1m"}

  /** How many bars a fetch asks the proxy for. */
  const FetchCount := 3000

  /** The bars the proxy returns for a request of assets, frequency and count. */
  type Proxy = (seq<Asset>, string, int) -> (Asset -> seq<Bar>)

  /** The requested assets not in the cache, in the order requested (a repeat stays repeated). */
  function Missing(assets: seq<Asset>, cache: map<Asset, seq<Bar>>): (m: seq<Asset>)
    ensures |m| <= |assets|
    ensures forall a :: a in m <==> a in assets && a !in cache
  {
    if |assets| == 0 then []
    else
      var m := Missing(assets[..|assets| - 1], cache);
      var a := assets[|assets| - 1];
      assert forall b :: b in assets <==> b in assets[..|assets| - 1] || b == a by {
        assert assets == assets[..|assets| - 1] + [a];
      }
      if a in cache then m else m + [a]
  }

  /** Nothing is missing once every requested asset is cached. */
  lemma {:induction false} NoneMissing(assets: seq<Asset>, cache: map<Asset, seq<Bar>>)
    requires forall a :: a in assets ==> a in cache
    ensures Missing(assets, cache) == []
  {
    if |assets| > 0 {
      NoneMissing(assets[..|assets| - 1], cache);
    }
  }

  /** The loop that collects the missing assets. */
  method MissingOf(assets: seq<Asset>, cache: map<Asset, seq<Bar>>) returns (missing: seq<Asset>)
    ensures missing == Missing(assets, cache)
  {
    missing := [];
    var i := 0;
    while i < |assets|
      invariant 0 <= i <= |assets|
      invariant missing == Missing(assets[..i], cache)
    {
      assert assets[..i + 1][..i] == assets[..i];
      if assets[i] !in cache {
        missing := missing + [assets[i]];
      }
      i := i + 1;
    }
    assert assets[..i] == assets;
  }

  /** The cache once every missing asset holds what the proxy returned; the others keep theirs. */
  function Stored(cache: map<Asset, seq<Bar>>, missing: seq<Asset>, data: Asset -> seq<Bar>): (c: map<Asset, seq<Bar>>)
    ensures forall a :: a in c <==> a in cache || a in missing
    ensures forall a :: a in missing ==> c[a] == data(a)
    ensures forall a :: a in cache && a !in missing ==> c[a] == cache[a]
  {
    var keys := cache.Keys + (set b | b in missing);
    map a | a in keys :: if a in missing then data(a) else cache[a]
  }

  /** The loop that writes the fetched bars into the cache. */
  method CacheAll(cache: map<Asset, seq<Bar>>, missing: seq<Asset>, data: Asset -> seq<Bar>)
    returns (c: map<Asset, seq<Bar>>)
    ensures c == Stored(cache, missing, data)
  {
    c := cache;
    var i := 0;
    while i < |missing|
      invariant 0 <= i <= |missing|
      invariant forall a :: a in c <==> a in cache || a in missing[..i]
      invariant forall a :: a in missing[..i] ==> c[a] == data(a)
      invariant forall a :: a in cache && a !in missing[..i] ==> c[a] == cache[a]
    {
      assert missing[..i + 1] == missing[..i] + [missing[i]];
      c := c[missing[i] := data(missing[i])];
      i := i + 1;
    }
    assert missing[..i] == missing;
  }

  /** `{asset: cache[asset] for asset in assets}` */
  function Restrict(cache: map<Asset, seq<Bar>>, assets: seq<Asset>): (r: map<Asset, seq<Bar>>)
    requires forall a :: a in assets ==> a in cache
    ensures forall a :: a in r <==> a in assets
    ensures forall a :: a in r ==> r[a] == cache[a]
  {
    map a | a in assets :: cache[a]
  }

  /** The loop that builds the answer. */
  method RestrictTo(cache: map<Asset, seq<Bar>>, assets: seq<Asset>) returns (r: map<Asset, seq<Bar>>)
    requires forall a :: a in assets ==> a in cache
    ensures r == Restrict(cache, assets)
  {
    r := map[];
    var i := 0;
    while i < |assets|
      invariant 0 <= i <= |assets|
      invariant forall a :: a in r <==> a in assets[..i]
      invariant forall a :: a in r ==> r[a] == cache[a]
    {
      assert assets[..i + 1] == assets[..i] + [assets[i]];
      r := r[assets[i] := cache[assets[i]]];
      i := i + 1;
    }
    assert assets[..i] == assets;
  }

  /**
   * `_get_real_bars`' effect on one frequency's table: the proxy is asked
   * once, for the missing assets only, and only when some are missing.
   */
  function Fetched(cache: map<Asset, seq<Bar>>, assets: seq<Asset>, freq: string, proxy: Proxy): (c: map<Asset, seq<Bar>>)
    ensures |Missing(assets, cache)| == 0 ==> c == cache
    ensures forall a :: a in assets ==> a in c
    ensures forall a :: a in cache ==> a in c && c[a] == cache[a]
    ensures forall a :: a in c && a !in cache ==> a in assets && c[a] == proxy(Missing(assets, cache), freq, FetchCount)(a)
  {
    var missing := Missing(assets, cache);
    if |missing| == 0 then cache else Stored(cache, missing, proxy(missing, freq, FetchCount))
  }

  /** A second request for the same assets asks the proxy for nothing and changes nothing. */
  lemma FetchedTwice(cache: map<Asset, seq<Bar>>, assets: seq<Asset>, freq: string, proxy: Proxy)
    ensures Missing(assets, Fetched(cache, assets, freq, proxy)) == []
    ensures Fetched(Fetched(cache, assets, freq, proxy), assets, freq, proxy) == Fetched(cache, assets, freq, proxy)
  {
    NoneMissing(assets, Fetched(cache, assets, freq, proxy));
  }

  /** The frame `get_bars` keeps for one asset: the bars up to now, then the last `barCount` of them. */
  function Trim(df: seq<Bar>, now: int, barCount: int): (r: seq<Bar>)
    ensures forall i :: 0 <= i < |r| ==> r[i].time <= now && r[i] in df
    ensures barCount > 0 ==> |r| == (if barCount < |UpTo(df, now)| then barCount else |UpTo(df, now)|)
    ensures exists k :: 0 <= k <= |UpTo(df, now)| && r == UpTo(df, now)[k..]
  {
    var up := UpTo(df, now);
    var r := Tail(up, barCount);
    assert forall j :: 0 <= j < |r| ==> r[j] in up by {
      var k :| 0 <= k <= |up| && r == up[k..];
      assert forall j :: 0 <= j < |r| ==> r[j] == up[k + j];
    }
    r
  }

  /** The loop over the requested assets. */
  method TrimAll(frames: map<Asset, seq<Bar>>, assets: seq<Asset>, now: int, barCount: int)
    returns (items: seq<seq<Bar>>)
    requires forall a :: a in assets ==> a in frames
    ensures |items| == |assets|
    ensures forall i :: 0 <= i < |assets| ==> items[i] == Trim(frames[assets[i]], now, barCount)
  {
    items := [];
    var i := 0;
    while i < |assets|
      invariant 0 <= i <= |assets|
      invariant |items| == i
      invariant forall j :: 0 <= j < i ==> items[j] == Trim(frames[assets[j]], now, barCount)
    {
      items := items + [Trim(frames[assets[i]], now, barCount)];
      i := i + 1;
    }
  }

  /** Why a fake-backend call raises. */
  /**
   * A frequency with no cache raises `KeyError`; joining no frames
   * (`pd.concat([])`) raises `ValueError`.
   */
  datatype FakeError = UnknownFrequency(freq: string) | NothingToConcatenate

  // ---- The backend

  /** The fake backend. `proxy` is the backend it fetches real bars from. */
  class FakeBackend {
    const proxy: Proxy
    var cash: real
    var buyingPower: real
    var totalPositionValue: real
    var positions: seq<(Asset, FakePosition)>
    var orderSeq: nat
    var orders: seq<(nat, Order)>
    var realBars: map<string, map<Asset, seq<Bar>>>

    predicate Valid()
      reads this
    {
      DistinctKeys(positions) && Numbered(orders, orderSeq) && realBars.Keys == Frequencies
    }

    /** `Backend(proxy, cash)`: the cash as buying power, nothing held, no order, empty caches. */
    constructor(proxy: Proxy, initialCash: real)
      ensures Valid()
      ensures this.proxy == proxy && cash == initialCash && buyingPower == initialCash && totalPositionValue == 0.0
      ensures positions == [] && orderSeq == 0 && orders == []
      ensures realBars == map["1d" := map[], "1m" := map[]]
    {
      this.proxy := proxy;
      cash := initialCash;
      buyingPower := initialCash;
      totalPositionValue := 0.0;
      positions := [];
      orderSeq := 0;
      orders := [];
      realBars := map["1d" := map[], "1m" := map[]];
    }

    /** `set_position`; `false` when the symbol is unknown, in which case nothing changes. */
    method SetPosition(t: Target, amount: int, costBasis: real, lastSalePrice: Option<real>,
                       lastSaleDate: Option<int>, lookup: string -> Option<Asset>) returns (ok: bool)
      requires Valid()
      modifies this
      ensures Valid()
      ensures ok <==> TargetAsset(t, lookup).Some?
      ensures ok ==> positions == SetPositionIn(old(positions), t, amount, costBasis, lastSalePrice, lastSaleDate, lookup).value
      ensures !ok ==> positions == old(positions)
      ensures orders == old(orders) && orderSeq == old(orderSeq) && realBars == old(realBars)
      ensures cash == old(cash) && buyingPower == old(buyingPower) && totalPositionValue == old(totalPositionValue)
    {
      var r := SetPositionIn(positions, t, amount, costBasis, lastSalePrice, lastSaleDate, lookup);
      ok := r.Some?;
      if ok {
        positions := r.value;
      }
    }

    /** `order`: the order under the next number, appended to the orders and returned. */
    method Order(asset: Asset, amount: int, style: ExecutionStyle, now: int) returns (o: Orders.Order)
      requires Valid()
      modifies this
      ensures Valid()
      ensures o == Placed(old(orderSeq), asset, amount, style, now)
      ensures orderSeq == old(orderSeq) + 1 && orders == old(orders) + [(orderSeq, o)]
      ensures Get(orders, orderSeq) == Some(o)
      ensures positions == old(positions) && realBars == old(realBars)
      ensures cash == old(cash) && buyingPower == old(buyingPower) && totalPositionValue == old(totalPositionValue)
    {
      var next := orderSeq + 1;
      o := Placed(orderSeq, asset, amount, style, now);
      PlaceAppends(orders, orderSeq, o);
      orders := Put(orders, next, o);
      orderSeq := next;
    }

    /** `cancel_order`: the order is deleted when present. */
    method CancelOrder(id: nat)
      requires Valid()
      modifies this
      ensures Valid()
      ensures orders == Discard(old(orders), id)
      ensures orderSeq == old(orderSeq) && positions == old(positions) && realBars == old(realBars)
      ensures cash == old(cash) && buyingPower == old(buyingPower) && totalPositionValue == old(totalPositionValue)
    {
      CancelNumbered(orders, orderSeq, id);
      orders := Discard(orders, id);
    }

    /**
     * `_get_real_bars`: the bars of exactly the requested assets, fetching
     * and caching those not cached yet; `fetched` is what the proxy was
     * asked for (empty when it was not called). An unknown frequency
     * raises before anything is fetched, at the first asset's cache lookup,
     * so with no asset it is not looked up and the answer is empty.
     */
    method GetRealBars(assets: seq<Asset>, freq: string) returns (r: Result<map<Asset, seq<Bar>>, FakeError>, fetched: seq<Asset>)
      requires Valid()
      modifies this
      ensures Valid()
      ensures freq !in Frequencies && |assets| > 0 ==> r == Err(UnknownFrequency(freq)) && fetched == [] && realBars == old(realBars)
      ensures freq !in Frequencies && |assets| == 0 ==> r == Ok(map[]) && fetched == [] && realBars == old(realBars)
      ensures freq in Frequencies ==>
        && fetched == Missing(assets, old(realBars)[freq])
        && realBars == old(realBars)[freq := Fetched(old(realBars)[freq], assets, freq, proxy)]
        && r == Ok(Restrict(realBars[freq], assets))
      ensures positions == old(positions) && orders == old(orders) && orderSeq == old(orderSeq)
      ensures cash == old(cash) && buyingPower == old(buyingPower) && totalPositionValue == old(totalPositionValue)
    {
      if freq !in realBars {
        r := if |assets| > 0 then Err(UnknownFrequency(freq)) else Ok(map[]);
        fetched := [];
        return;
      }
      var cache := realBars[freq];
      fetched := MissingOf(assets, cache);
      if |fetched| > 0 {
        var data := proxy(fetched, freq, FetchCount);
        cache := CacheAll(cache, fetched, data);
        realBars := realBars[freq := cache];
      }
      var frames := RestrictTo(realBars[freq], assets);
      r := Ok(frames);
    }

    /**
     * `get_bars`: per requested asset, its bars up to `now` and at most the
     * last `barCount` of them (the source's default count is 500). With no
     * asset there is no frame to join, which raises.
     */
    method GetBars(assets: seq<Asset>, freq: string, now: int, barCount: int) returns (r: Result<seq<seq<Bar>>, FakeError>)
      requires Valid()
      modifies this
      ensures Valid()
      ensures |assets| == 0 ==> r == Err(NothingToConcatenate) && realBars == old(realBars)
      ensures freq !in Frequencies && |assets| > 0 ==> r == Err(UnknownFrequency(freq)) && realBars == old(realBars)
      ensures freq in Frequencies ==>
        && realBars == old(realBars)[freq := Fetched(old(realBars)[freq], assets, freq, proxy)]
      ensures freq in Frequencies && |assets| > 0 ==>
        && r.Ok? && |r.value| == |assets|
        && forall i :: 0 <= i < |assets| ==> r.value[i] == Trim(realBars[freq][assets[i]], now, barCount)
      ensures positions == old(positions) && orders == old(orders) && orderSeq == old(orderSeq)
      ensures cash == old(cash) && buyingPower == old(buyingPower) && totalPositionValue == old(totalPositionValue)
    {
      var frames, _ := GetRealBars(assets, freq);
      if frames.Err? {
        r := Err(frames.error);
        return;
      }
      if |assets| == 0 {
        r := Err(NothingToConcatenate);
        return;
      }
      var items := TrimAll(frames.value, assets, now, barCount);
      r := Ok(items);
    }
  }
}
