/**
 * The data portal: spot values and history windows read from the backend.
 * A bar frame is given by the backend as a function from (field, asset) to
 * that asset's column of bars, oldest first, with `None` for a missing
 * (NaN) bar. Bars fetched for a request are memoised by the request.
 */
module DataPortals {
  import opened Wrappers
  import opened Assets
  import opened TimeModel

  /** One asset's bars for one field, oldest first; `None` is a NaN bar. */
  type Column = seq<Option<real>>

  /** `get_bars`' frame: the column of each (field, asset). */
  type Frame = (string, Asset) -> Column

  /** A spot value: a number (volume, price), or a time (`last_traded`, `None` for NaT). */
  datatype Spot = Number(number: Option<real>) | Stamp(stamp: Option<int>)

  /** The part of the backend the portal calls. */
  datatype PortalBackend = PortalBackend(
    getSpotValue: (Asset, string, Option<int>, string, bool) -> Spot,
    getBars: (seq<Asset>, string, int) -> Frame,
    getLastTradedDt: Asset -> Option<int>)

  /** The arguments the bar memo is keyed on. */
  datatype BarsKey = BarsKey(assets: seq<Asset>, frequency: string, barCount: int, endDt: Option<int>)

  /** The column a field is read from: `'price'` reads `'close'`. */
  function OhlcvField(field: string): (col: string)
    ensures field == "price" ==> col == "close"
    ensures field != "price" ==> col == field
  {
    if field == "price" then "close" else field
  }

  /** Every bar of the column is missing (vacuously so for no bars, as Python's `all`). */
  predicate AllMissing(c: Column)
  {
    forall i :: 0 <= i < |c| ==> c[i].None?
  }

  /**
   * The bar counts refetched for one asset, the counter starting at
   * `retry`: while that asset's column in the latest bars is all missing
   * and the counter is below 3, the counter goes up and the bars are
   * fetched again with `barCount` times the counter.
   */
  function RetryAsset(b: PortalBackend, assets: seq<Asset>, frequency: string, barCount: int, col: string,
                      a: Asset, count: int, retry: nat): (rs: seq<int>)
    requires retry <= 3
    ensures |rs| <= 3 - retry
    ensures forall j :: 0 <= j < |rs| ==> rs[j] == barCount * (retry + 1 + j)
    decreases 3 - retry
  {
    if AllMissing(b.getBars(assets, frequency, count)(col, a)) && retry < 3 then
      var next := barCount * (retry + 1);
      [next] + RetryAsset(b, assets, frequency, barCount, col, a, next, retry + 1)
    else []
  }

  /** The last element. */
  function Last(xs: seq<int>): int
    requires |xs| > 0
  {
    xs[|xs| - 1]
  }

  /**
   * The bar counts fetched for the first `i` assets: the first request,
   * then each asset's refetches, each asset's counter restarting at 1 and
   * reading the bars the previous refetch left.
   */
  function Requests(b: PortalBackend, assets: seq<Asset>, frequency: string, barCount: int, col: string, i: nat): (rs: seq<int>)
    requires i <= |assets|
    ensures |rs| > 0 && rs[0] == barCount
  {
    if i == 0 then [barCount]
    else
      var rs := Requests(b, assets, frequency, barCount, col, i - 1);
      rs + RetryAsset(b, assets, frequency, barCount, col, assets[i - 1], Last(rs), 1)
  }

  /** The requests after one more asset: its refetches follow, and the last count is theirs when there are any. */
  lemma RequestsStep(b: PortalBackend, assets: seq<Asset>, frequency: string, barCount: int, col: string, i: nat,
                     rs: seq<int>, more: seq<int>)
    requires i < |assets| && rs == Requests(b, assets, frequency, barCount, col, i)
    requires more == RetryAsset(b, assets, frequency, barCount, col, assets[i], Last(rs), 1)
    ensures Requests(b, assets, frequency, barCount, col, i + 1) == rs + more
    ensures Last(rs + more) == if |more| == 0 then Last(rs) else Last(more)
  {
  }

  /** At most two refetches per asset, so at most `1 + 2·|assets|` fetches in all. */
  lemma {:induction false} RequestsBound(b: PortalBackend, assets: seq<Asset>, frequency: string, barCount: int, col: string, i: nat)
    requires i <= |assets|
    ensures |Requests(b, assets, frequency, barCount, col, i)| <= 1 + 2 * i
  {
    if i > 0 {
      RequestsBound(b, assets, frequency, barCount, col, i - 1);
    }
  }

  /**
   * After one asset's retries, either its column in the bars last fetched
   * has a present bar, or the counter reached 3 (two refetches were made).
   */
  lemma {:induction false} RetryAssetStops(b: PortalBackend, assets: seq<Asset>, frequency: string, barCount: int, col: string,
                                          a: Asset, count: int, retry: nat)
    requires 1 <= retry <= 3
    ensures var rs := RetryAsset(b, assets, frequency, barCount, col, a, count, retry);
      var final := if |rs| == 0 then count else Last(rs);
      !AllMissing(b.getBars(assets, frequency, final)(col, a)) || |rs| == 3 - retry
    decreases 3 - retry
  {
    if AllMissing(b.getBars(assets, frequency, count)(col, a)) && retry < 3 {
      var next := barCount * (retry + 1);
      RetryAssetStops(b, assets, frequency, barCount, col, a, next, retry + 1);
    }
  }

  /** `bars[-n:]`: the last `n` rows for positive `n`; `-0` is `0`, so all rows for `n == 0`. */
  function Tail<T>(xs: seq<T>, n: int): (r: seq<T>)
    ensures n > 0 ==> |r| == (if n < |xs| then n else |xs|)
    ensures n == 0 ==> r == xs
    ensures n < 0 ==> r == xs[(if -n < |xs| then -n else |xs|)..]
    ensures exists k :: 0 <= k <= |xs| && r == xs[k..]
  {
    if n > 0 then xs[(if n < |xs| then |xs| - n else 0)..]
    else if n == 0 then assert xs[0..] == xs; xs
    else xs[(if -n < |xs| then -n else |xs|)..]
  }

  /** `fillna(method='ffill')`: each missing bar takes the latest present bar before it. */
  function FFill(c: Column): (r: Column)
    ensures |r| == |c|
    ensures forall i :: 0 <= i < |c| && c[i].Some? ==> r[i] == c[i]
    ensures forall i :: 0 <= i < |c| ==> (r[i].None? <==> forall j :: 0 <= j <= i ==> c[j].None?)
  {
    if |c| == 0 then []
    else
      var p := FFill(c[..|c| - 1]);
      var x := if c[|c| - 1].Some? then c[|c| - 1] else if |p| > 0 then p[|p| - 1] else None;
      assert forall j :: 0 <= j < |c| - 1 ==> c[..|c| - 1][j] == c[j];
      p + [x]
  }

  /** Forward filling puts the latest earlier present bar into each gap. */
  lemma {:induction false} FFillLatest(c: Column, i: nat, j: nat)
    requires j <= i < |c| && c[j].Some?
    requires forall k :: j < k <= i ==> c[k].None?
    ensures FFill(c)[i] == c[j]
    decreases |c|
  {
    if i == j {
      assert FFill(c)[i] == c[i];
    } else {
      var init := c[..|c| - 1];
      var p := FFill(init);
      FFillSnoc(c);
      assert init[j] == c[j];
      if i < |c| - 1 {
        assert forall k :: j < k <= i ==> init[k].None?;
        FFillLatest(init, i, j);
        assert FFill(c)[i] == p[i];
      } else {
        assert forall k :: j < k <= i - 1 ==> init[k].None?;
        FFillLatest(init, i - 1, j);
        assert c[|c| - 1].None?;
        assert FFill(c)[i] == p[i - 1];
      }
    }
  }

  /** Forward filling one more bar: a present bar stays, a missing one repeats the filled bar before it. */
  lemma FFillSnoc(c: Column)
    requires |c| > 0
    ensures var p := FFill(c[..|c| - 1]);
      FFill(c) == p + [if c[|c| - 1].Some? then c[|c| - 1] else if |p| > 0 then p[|p| - 1] else None]
  {
  }

  /** `fillna(method='bfill')`: each missing bar takes the earliest present bar after it. */
  function BFill(c: Column): (r: Column)
    ensures |r| == |c|
    ensures forall i :: 0 <= i < |c| && c[i].Some? ==> r[i] == c[i]
    ensures forall i :: 0 <= i < |c| ==> (r[i].None? <==> forall j :: i <= j < |c| ==> c[j].None?)
  {
    if |c| == 0 then []
    else
      var s := BFill(c[1..]);
      var x := if c[0].Some? then c[0] else if |s| > 0 then s[0] else None;
      assert forall j :: 1 <= j < |c| ==> c[1..][j - 1] == c[j];
      [x] + s
  }

  /**
   * Forward then backward filling keeps the length and every present bar,
   * and leaves no bar missing unless all were.
   */
  lemma FillComplete(c: Column)
    ensures |BFill(FFill(c))| == |c|
    ensures forall i :: 0 <= i < |c| && c[i].Some? ==> BFill(FFill(c))[i] == c[i]
    ensures !AllMissing(c) ==> !exists i :: 0 <= i < |c| && BFill(FFill(c))[i].None?
  {
    var f := FFill(c);
    if !AllMissing(c) {
      var k :| 0 <= k < |c| && c[k].Some?;
      assert f[k].Some?;
      forall i | 0 <= i < |c| ensures BFill(f)[i].Some? {
        if i <= k {
          assert f[k].Some?;
        } else {
          assert f[i].Some?;
        }
      }
    }
  }

  /** The column of one asset in the returned window. */
  function WindowColumn(bars: Frame, col: string, a: Asset, fill: bool, barCount: int): Column
  {
    var c := bars(col, a);
    Tail(if fill then BFill(FFill(c)) else c, barCount)
  }

  /** The window built from the bars last fetched: one column per asset, in order. */
  function Window(b: PortalBackend, assets: seq<Asset>, frequency: string, count: int, field: string, ffill: bool, barCount: int): (w: seq<Column>)
    ensures |w| == |assets|
  {
    var bars := b.getBars(assets, frequency, count);
    seq(|assets|, i requires 0 <= i < |assets| => WindowColumn(bars, OhlcvField(field), assets[i], ffill && field == "price", barCount))
  }

  /** The memo keys of a run of requests. */
  function KeysOf(assets: seq<Asset>, frequency: string, endDt: Option<int>, counts: seq<int>): set<BarsKey>
  {
    set i | 0 <= i < |counts| :: BarsKey(assets, frequency, counts[i], endDt)
  }

  class DataPortal {
    const backend: PortalBackend
    const calendar: Calendar
    const quantopianCompatible: bool
    /** `_get_realtime_bars`' memo (its ten-entry eviction is not modelled). */
    var memo: map<BarsKey, Frame>

    /** Every memoised frame is what the backend gives for its request. */
    ghost predicate Valid()
      reads this
    {
      forall k :: k in memo ==> memo[k] == backend.getBars(k.assets, k.frequency, k.barCount)
    }

    constructor(backend: PortalBackend, calendar: Calendar, quantopianCompatible: bool)
      ensures this.backend == backend && this.calendar == calendar
      ensures this.quantopianCompatible == quantopianCompatible
      ensures memo == map[] && Valid()
    {
      this.backend := backend;
      this.calendar := calendar;
      this.quantopianCompatible := quantopianCompatible;
      memo := map[];
    }

    /** `get_spot_value`: the backend's spot value, with the portal's compatibility flag. */
    function GetSpotValue(asset: Asset, field: string, dt: Option<int>, dataFrequency: string): (v: Spot)
      ensures v == backend.getSpotValue(asset, field, dt, dataFrequency, quantopianCompatible)
    {
      backend.getSpotValue(asset, field, dt, dataFrequency, quantopianCompatible)
    }

    /** `get_adjusted_value`: the same backend call; the perspective time is not passed on. */
    function GetAdjustedValue(asset: Asset, field: string, dt: Option<int>, perspectiveDt: Option<int>, dataFrequency: string): (v: Spot)
      ensures v == GetSpotValue(asset, field, dt, dataFrequency)
    {
      backend.getSpotValue(asset, field, dt, dataFrequency, quantopianCompatible)
    }

    /** `get_last_traded_dt`: the backend's answer; the time and the frequency are not used. */
    function GetLastTradedDt(asset: Asset, dt: Option<int>, dataFrequency: string): (t: Option<int>)
      ensures t == backend.getLastTradedDt(asset)
    {
      backend.getLastTradedDt(asset)
    }

    /** `_get_realtime_bars`: the memoised frame, or the backend's, memoised now. */
    method GetRealtimeBars(key: BarsKey) returns (bars: Frame)
      requires Valid()
      modifies this
      ensures Valid()
      ensures bars == backend.getBars(key.assets, key.frequency, key.barCount)
      ensures memo == old(memo)[key := bars]
    {
      if key in memo {
        bars := memo[key];
      } else {
        bars := backend.getBars(key.assets, key.frequency, key.barCount);
        memo := memo[key := bars];
      }
    }

    /** `cache_clear`: the memo is emptied. */
    method CacheClear()
      modifies this
      ensures memo == map[] && Valid()
    {
      memo := map[];
    }

    /**
     * `get_history_window`: the bars for the request, refetched in
     * compatible mode while an asset's column is all missing; then the
     * field's columns, filled for `'price'` when asked, and their last
     * `barCount` rows. `requests` are the bar counts asked for, in order.
     */
    method GetHistoryWindow(assets: seq<Asset>, endDt: Option<int>, barCount: int, frequency: string,
                            field: string, dataFrequency: string, ffill: bool)
      returns (window: seq<Column>, ghost requests: seq<int>)
      requires Valid()
      modifies this
      ensures Valid()
      ensures var col := OhlcvField(field);
        requests == (if quantopianCompatible then Requests(backend, assets, frequency, barCount, col, |assets|) else [barCount])
      ensures window == Window(backend, assets, frequency, Last(requests), field, ffill, barCount)
      ensures memo.Keys == old(memo).Keys + KeysOf(assets, frequency, endDt, requests)
    {
      var col := OhlcvField(field);
      var bars := GetRealtimeBars(BarsKey(assets, frequency, barCount, endDt));
      requests := [barCount];
      KeysSnoc(assets, frequency, endDt, [], barCount);
      assert [] + [barCount] == requests;
      assert memo.Keys == old(memo).Keys + KeysOf(assets, frequency, endDt, requests);
      if quantopianCompatible {
        bars, requests := RetryAll(assets, endDt, barCount, frequency, col, bars);
      }
      assert bars == backend.getBars(assets, frequency, Last(requests));
      window := seq(|assets|, i requires 0 <= i < |assets| => WindowColumn(bars, col, assets[i], ffill && field == "price", barCount));
    }

    /** The compatible mode's loop over the assets, each with its retries. */
    method RetryAll(assets: seq<Asset>, endDt: Option<int>, barCount: int, frequency: string, col: string, bars0: Frame)
      returns (bars: Frame, ghost requests: seq<int>)
      requires Valid() && bars0 == backend.getBars(assets, frequency, barCount)
      requires BarsKey(assets, frequency, barCount, endDt) in memo
      modifies this
      ensures Valid()
      ensures requests == Requests(backend, assets, frequency, barCount, col, |assets|)
      ensures bars == backend.getBars(assets, frequency, Last(requests))
      ensures memo.Keys == old(memo).Keys + KeysOf(assets, frequency, endDt, requests)
    {
      bars := bars0;
      var count := barCount;
      requests := [barCount];
      KeysSnoc(assets, frequency, endDt, [], barCount);
      assert [] + [barCount] == requests;
      for i := 0 to |assets|
        invariant Valid()
        invariant requests == Requests(backend, assets, frequency, barCount, col, i)
        invariant count == Last(requests)
        invariant bars == backend.getBars(assets, frequency, count)
        invariant KeysRecorded(memo.Keys, old(memo).Keys, assets, frequency, endDt, requests)
      {
        ghost var more;
        ghost var keys := memo.Keys;
        bars, count, more := RetryFor(assets, endDt, barCount, frequency, col, assets[i], bars, count);
        KeysExtended(keys, memo.Keys, old(memo).Keys, assets, frequency, endDt, requests, more);
        RequestsStep(backend, assets, frequency, barCount, col, i, requests, more);
        requests := requests + more;
      }
    }

    /**
     * One asset's retries: while its column in the latest bars is all
     * missing and the counter, starting at 1, is below 3, the counter goes
     * up and the bars are fetched again with `barCount` times the counter.
     */
    method RetryFor(assets: seq<Asset>, endDt: Option<int>, barCount: int, frequency: string, col: string,
                    a: Asset, bars0: Frame, count0: int)
      returns (bars: Frame, count: int, ghost more: seq<int>)
      requires Valid() && bars0 == backend.getBars(assets, frequency, count0)
      modifies this
      ensures Valid()
      ensures more == RetryAsset(backend, assets, frequency, barCount, col, a, count0, 1)
      ensures count == (if |more| == 0 then count0 else Last(more))
      ensures bars == backend.getBars(assets, frequency, count)
      ensures memo.Keys == old(memo).Keys + KeysOf(assets, frequency, endDt, more)
    {
      bars, count, more := bars0, count0, [];
      var retry := 1;
      while AllMissing(bars(col, a)) && retry < 3
        invariant 1 <= retry <= 3 && Valid()
        invariant bars == backend.getBars(assets, frequency, count)
        invariant count == (if |more| == 0 then count0 else Last(more))
        invariant more + RetryAsset(backend, assets, frequency, barCount, col, a, count, retry)
          == RetryAsset(backend, assets, frequency, barCount, col, a, count0, 1)
        invariant memo.Keys == old(memo).Keys + KeysOf(assets, frequency, endDt, more)
        decreases 3 - retry
      {
        RetryAssetStep(backend, assets, frequency, barCount, col, a, count, retry, more);
        retry := retry + 1;
        count := barCount * retry;
        bars := GetRealtimeBars(BarsKey(assets, frequency, count, endDt));
        KeysSnoc(assets, frequency, endDt, more, count);
        more := more + [count];
      }
    }
  }

  /** A refetch while the column is all missing moves the first remaining request into the done ones. */
  lemma RetryAssetStep(b: PortalBackend, assets: seq<Asset>, frequency: string, barCount: int, col: string,
                       a: Asset, count: int, retry: nat, done: seq<int>)
    requires retry < 3 && AllMissing(b.getBars(assets, frequency, count)(col, a))
    ensures var next := barCount * (retry + 1);
      done + RetryAsset(b, assets, frequency, barCount, col, a, count, retry)
        == (done + [next]) + RetryAsset(b, assets, frequency, barCount, col, a, next, retry + 1)
  {
    var next := barCount * (retry + 1);
    var rest := RetryAsset(b, assets, frequency, barCount, col, a, next, retry + 1);
    assert RetryAsset(b, assets, frequency, barCount, col, a, count, retry) == [next] + rest;
    assert done + ([next] + rest) == (done + [next]) + rest;
  }

  /** The memo holds the keys it held before and those of the requests made. */
  ghost predicate KeysRecorded(keys: set<BarsKey>, base: set<BarsKey>, assets: seq<Asset>, frequency: string,
                               endDt: Option<int>, requests: seq<int>)
  {
    keys == base + KeysOf(assets, frequency, endDt, requests)
  }

  /** More requests add their keys. */
  lemma KeysExtended(keys: set<BarsKey>, keysAfter: set<BarsKey>, base: set<BarsKey>, assets: seq<Asset>, frequency: string,
                     endDt: Option<int>, requests: seq<int>, more: seq<int>)
    requires KeysRecorded(keys, base, assets, frequency, endDt, requests)
    requires keysAfter == keys + KeysOf(assets, frequency, endDt, more)
    ensures KeysRecorded(keysAfter, base, assets, frequency, endDt, requests + more)
  {
    KeysAppend(assets, frequency, endDt, requests, more);
  }

  /** The keys of two runs of requests together. */
  lemma KeysAppend(assets: seq<Asset>, frequency: string, endDt: Option<int>, xs: seq<int>, ys: seq<int>)
    ensures KeysOf(assets, frequency, endDt, xs + ys) == KeysOf(assets, frequency, endDt, xs) + KeysOf(assets, frequency, endDt, ys)
  {
    var zs := xs + ys;
    assert forall i :: 0 <= i < |xs| ==> zs[i] == xs[i];
    assert forall i :: 0 <= i < |ys| ==> zs[|xs| + i] == ys[i];
    forall k | k in KeysOf(assets, frequency, endDt, zs)
      ensures k in KeysOf(assets, frequency, endDt, xs) + KeysOf(assets, frequency, endDt, ys)
    {
      var i :| 0 <= i < |zs| && k == BarsKey(assets, frequency, zs[i], endDt);
      if i >= |xs| {
        assert zs[i] == ys[i - |xs|];
      }
    }
  }

  /** Adding a request adds its key. */
  lemma KeysSnoc(assets: seq<Asset>, frequency: string, endDt: Option<int>, counts: seq<int>, c: int)
    ensures KeysOf(assets, frequency, endDt, counts + [c]) == KeysOf(assets, frequency, endDt, counts) + {BarsKey(assets, frequency, c, endDt)}
  {
    assert forall i :: 0 <= i < |counts| ==> (counts + [c])[i] == counts[i];
    assert (counts + [c])[|counts|] == c;
  }

  /** The adjusted value is the spot value, whatever the perspective time. */
  lemma AdjustedIsSpot(p: DataPortal, asset: Asset, field: string, dt: Option<int>, perspectiveDt: Option<int>, dataFrequency: string)
    ensures p.GetAdjustedValue(asset, field, dt, perspectiveDt, dataFrequency) == p.GetSpotValue(asset, field, dt, dataFrequency)
    ensures p.GetSpotValue(asset, field, dt, dataFrequency) == p.backend.getSpotValue(asset, field, dt, dataFrequency, p.quantopianCompatible)
  {
  }

  /**
   * A window of ten bars, asked of a backend with at least ten bars per
   * column, has ten rows in each column.
   */
  lemma WindowLength(b: PortalBackend, assets: seq<Asset>, frequency: string, count: int, field: string, ffill: bool, barCount: nat, i: nat)
    requires i < |assets| && 0 < barCount <= |b.getBars(assets, frequency, count)(OhlcvField(field), assets[i])|
    ensures |Window(b, assets, frequency, count, field, ffill, barCount)[i]| == barCount
  {
  }
}
