/**
 * `BarData`, the `data` object handed to the algorithm's callbacks: the
 * current minute it reads at, the spot values of assets and fields, and
 * whether an asset can be traded or is stale. `Asset.is_exchange_open` and
 * `Asset.is_alive_for_session` are not defined by the asset class of this
 * model, so they are given as functions.
 */
module BarDatas {
  import opened Wrappers
  import opened Assets
  import opened TimeModel
  import opened DataPortals

  /** One asset (or field), or a list of them; a string counts as one. */
  datatype Side<T> = One(item: T) | Many(items: seq<T>)
  {
    /** `assets if _is_iterable(assets) else [assets]` */
    function Items(): (xs: seq<T>)
      ensures One? ==> xs == [item]
      ensures Many? ==> xs == items
    {
      if One? then [item] else items
    }
  }

  /** A calendar lookup made on an unset datetime. */
  datatype BarDataError = NoDatetime

  /** Which portal call `current` fetches with. */
  datatype Route = SpotRoute | AdjustedRoute

  /**
   * What `current` returns: a scalar for one asset and one field, a series
   * over the assets or over the fields when one side is a list, and a frame
   * (one column per field, indexed by the assets) when both are.
   */
  datatype Current =
    | Scalar(value: Spot)
    | AssetSeries(field: string, byAsset: seq<Spot>)
    | FieldSeries(symbol: Option<string>, byField: seq<Spot>)
    | Table(columns: seq<seq<Spot>>)

  /**
   * `_get_current_minute`: the datetime; while adjusting, the market
   * minute before it; in daily mode, the session label of that. The
   * calendar cannot be asked about an unset datetime.
   */
  function CurrentMinuteOf(cal: Calendar, dailyMode: bool, adjust: bool, dt: Option<int>): (r: Result<Option<int>, BarDataError>)
    ensures r.Err? <==> dt.None? && (adjust || dailyMode)
    ensures !adjust && !dailyMode ==> r == Ok(dt)
    ensures adjust && !dailyMode && dt.Some? ==> r == Ok(Some(cal.previousMinute(dt.value)))
    ensures dailyMode && dt.Some? ==>
      r == Ok(Some(cal.minuteToSessionLabel(if adjust then cal.previousMinute(dt.value) else dt.value)))
  {
    if (adjust || dailyMode) && dt.None? then Err(NoDatetime)
    else
      var m := if adjust then Some(cal.previousMinute(dt.value)) else dt;
      if dailyMode then Ok(Some(cal.minuteToSessionLabel(m.value))) else Ok(m)
  }

  /** The (asset, field) pairs of one asset, in field order. */
  function Row(a: Asset, fields: seq<string>): (r: seq<(Asset, string)>)
    ensures |r| == |fields|
    ensures forall j :: 0 <= j < |fields| ==> r[j] == (a, fields[j])
  {
    seq(|fields|, j requires 0 <= j < |fields| => (a, fields[j]))
  }

  /** `fetch_args`: every (asset, field) pair, asset-major. */
  function FetchArgs(assets: seq<Asset>, fields: seq<string>): (r: seq<(Asset, string)>)
    ensures forall k :: 0 <= k < |r| ==> r[k].0 in assets && r[k].1 in fields
    decreases |assets|
  {
    if |assets| == 0 then []
    else FetchArgs(assets[..|assets| - 1], fields) + Row(assets[|assets| - 1], fields)
  }

  /** One fetch per (asset, field) pair. */
  lemma {:induction false} FetchArgsLength(assets: seq<Asset>, fields: seq<string>)
    ensures |FetchArgs(assets, fields)| == |assets| * |fields|
  {
    if |assets| > 0 {
      var init := assets[..|assets| - 1];
      FetchArgsLength(init, fields);
      MulSucc(|init|, |assets|, |fields|);
    }
  }

  /** Nothing is fetched exactly when there is no asset or no field. */
  lemma {:induction false} FetchArgsEmpty(assets: seq<Asset>, fields: seq<string>)
    ensures |FetchArgs(assets, fields)| == 0 <==> |assets| == 0 || |fields| == 0
  {
    if |assets| > 0 {
      FetchArgsEmpty(assets[..|assets| - 1], fields);
    }
  }

  /** The fetches of the first `i` assets come first. */
  lemma {:induction false} FetchArgsPrefix(assets: seq<Asset>, fields: seq<string>, i: nat)
    requires i <= |assets|
    ensures var q := FetchArgs(assets[..i], fields);
      |q| <= |FetchArgs(assets, fields)| && FetchArgs(assets, fields)[..|q|] == q
    decreases |assets|
  {
    if i < |assets| {
      var init := assets[..|assets| - 1];
      assert init[..i] == assets[..i];
      FetchArgsPrefix(init, fields, i);
    } else {
      assert assets[..i] == assets;
    }
  }

  /** The nested loops of `current` that list the pairs to fetch. */
  method FetchPairs(assetList: seq<Asset>, fieldList: seq<string>) returns (fetched: seq<(Asset, string)>)
    ensures fetched == FetchArgs(assetList, fieldList)
  {
    fetched := [];
    for i := 0 to |assetList|
      invariant fetched == FetchArgs(assetList[..i], fieldList)
    {
      assert assetList[..i + 1][..i] == assetList[..i];
      ghost var before := fetched;
      for j := 0 to |fieldList|
        invariant fetched == before + Row(assetList[i], fieldList[..j])
      {
        fetched := fetched + [(assetList[i], fieldList[j])];
      }
      assert fieldList[..|fieldList|] == fieldList;
    }
    assert assetList[..|assetList|] == assetList;
  }

  /** There is one fetch per (asset, field) position: the pair of asset `i` and field `j` is fetch `i·|fields| + j`. */
  lemma FetchArgsAt(assets: seq<Asset>, fields: seq<string>, i: nat, j: nat)
    requires i < |assets| && j < |fields|
    ensures i * |fields| + j < |FetchArgs(assets, fields)|
    ensures FetchArgs(assets, fields)[i * |fields| + j] == (assets[i], fields[j])
  {
    var q := FetchArgs(assets[..i], fields);
    var q1 := FetchArgs(assets[..i + 1], fields);
    assert assets[..i + 1][..i] == assets[..i];
    assert q1 == q + Row(assets[i], fields);
    FetchArgsPrefix(assets, fields, i + 1);
    FetchArgsLength(assets[..i], fields);
    MulSucc(i - 1, i, |fields|);
    assert q1[|q| + j] == (assets[i], fields[j]);
  }

  /** One more row of `m`. */
  lemma MulSucc(k: int, n: int, m: int)
    requires n == k + 1
    ensures n * m == k * m + m
  {
  }

  /** The shape and values `current` returns, given the fetch used for each pair. */
  function Shape(assets: Side<Asset>, fields: Side<string>, fetch: (Asset, string) -> Spot): (r: Current)
    ensures r.Scalar? <==> assets.One? && fields.One?
    ensures r.AssetSeries? <==> assets.Many? && fields.One?
    ensures r.FieldSeries? <==> assets.One? && fields.Many?
    ensures r.Table? <==> assets.Many? && fields.Many?
    ensures r.AssetSeries? ==> |r.byAsset| == |assets.items|
    ensures r.FieldSeries? ==> |r.byField| == |fields.items|
    ensures r.Table? ==> |r.columns| == |fields.items| && forall k :: 0 <= k < |r.columns| ==> |r.columns[k]| == |assets.items|
  {
    match (assets, fields)
    case (One(a), One(f)) => Scalar(fetch(a, f))
    case (Many(as'), One(f)) => AssetSeries(f, seq(|as'|, i requires 0 <= i < |as'| => fetch(as'[i], f)))
    case (One(a), Many(fs)) => FieldSeries(a.symbol, seq(|fs|, k requires 0 <= k < |fs| => fetch(a, fs[k])))
    case (Many(as'), Many(fs)) =>
      Table(seq(|fs|, k requires 0 <= k < |fs| => seq(|as'|, i requires 0 <= i < |as'| => fetch(as'[i], fs[k]))))
  }

  /** Each value of the result is the fetch of its own asset and field. */
  lemma ShapeValues(assets: Side<Asset>, fields: Side<string>, fetch: (Asset, string) -> Spot)
    ensures var r := Shape(assets, fields, fetch);
      (assets.One? && fields.One? ==> r == Scalar(fetch(assets.item, fields.item)))
      && (assets.Many? && fields.One? ==>
            r.AssetSeries? && |r.byAsset| == |assets.items|
            && forall i :: 0 <= i < |assets.items| ==> r.byAsset[i] == fetch(assets.items[i], fields.item))
      && (assets.One? && fields.Many? ==>
            r.FieldSeries? && |r.byField| == |fields.items|
            && forall k :: 0 <= k < |fields.items| ==> r.byField[k] == fetch(assets.item, fields.items[k]))
      && (assets.Many? && fields.Many? ==>
            r.Table? && |r.columns| == |fields.items|
            && forall k, i :: 0 <= k < |fields.items| && 0 <= i < |assets.items| ==>
              |r.columns[k]| == |assets.items| && r.columns[k][i] == fetch(assets.items[i], fields.items[k]))
  {
  }

  /** The minute the exchange check of `can_trade` uses: `dt` when the calendar is open, else its next open. */
  function ExchangeCheckMinute(cal: Calendar, dt: int): (m: int)
    ensures cal.isOpenOnMinute(dt) ==> m == dt
    ensures !cal.isOpenOnMinute(dt) ==> m == cal.nextOpen(dt)
  {
    if cal.isOpenOnMinute(dt) then dt else cal.nextOpen(dt)
  }

  /**
   * `_can_trade_for_asset`: not when the broker says the asset is not
   * tradable; in minute mode, not when its exchange is closed at the
   * check minute; otherwise yes.
   */
  function CanTradeForAsset(tradable: Asset -> bool, exchangeOpen: (Asset, int) -> bool, cal: Calendar,
                            dailyMode: bool, asset: Asset, dt: Option<int>): (r: Result<bool, BarDataError>)
    ensures r.Err? <==> tradable(asset) && !dailyMode && dt.None?
    ensures r == Ok(true) <==>
      (tradable(asset) && (dailyMode || (dt.Some? && exchangeOpen(asset, ExchangeCheckMinute(cal, dt.value)))))
  {
    if !tradable(asset) then Ok(false)
    else if !dailyMode then
      if dt.None? then Err(NoDatetime)
      else Ok(exchangeOpen(asset, ExchangeCheckMinute(cal, dt.value)))
    else Ok(true)
  }

  /** A volume that compares greater than zero (a NaN one does not). */
  predicate PositiveVolume(s: Spot)
  {
    s.Number? && s.number.Some? && s.number.value > 0.0
  }

  /**
   * `_is_stale_for_asset`: not for an asset that is not alive on the
   * day of `dt`, nor when it has volume now; otherwise stale exactly when
   * it has ever traded (its last-traded time is not NaT).
   */
  function IsStaleForAsset(alive: (Asset, int) -> bool, spot: (Asset, string) -> Spot,
                           asset: Asset, dt: Option<int>): (r: Result<bool, BarDataError>)
    ensures r.Err? <==> dt.None?
    ensures r.Ok? ==> (r.value <==>
      (alive(asset, DayLabel(dt.value)) && !PositiveVolume(spot(asset, "volume")) && spot(asset, "last_traded") != Stamp(None)))
  {
    if dt.None? then Err(NoDatetime)
    else if !alive(asset, DayLabel(dt.value)) then Ok(false)
    else if PositiveVolume(spot(asset, "volume")) then Ok(false)
    else Ok(spot(asset, "last_traded") != Stamp(None))
  }

  /** The answers for every asset, or the first error. */
  function AllOk(rs: seq<Result<bool, BarDataError>>): (r: Result<seq<bool>, BarDataError>)
    ensures r.Ok? <==> forall i :: 0 <= i < |rs| ==> rs[i].Ok?
    ensures r.Ok? ==> |r.value| == |rs| && forall i :: 0 <= i < |rs| ==> Ok(r.value[i]) == rs[i]
  {
    if |rs| == 0 then Ok([])
    else
      var last := rs[|rs| - 1];
      var init := AllOk(rs[..|rs| - 1]);
      assert forall i :: 0 <= i < |rs| - 1 ==> rs[..|rs| - 1][i] == rs[i];
      if init.Err? then init
      else if last.Err? then Err(last.error)
      else Ok(init.value + [last.value])
  }

  /** The fetch `current` makes for one pair: the adjusted value while adjusting, the spot value otherwise. */
  function Fetch(portal: DataPortal, adjust: bool, dataFrequency: string, minute: Option<int>, a: Asset, f: string): Spot
  {
    if adjust then portal.GetAdjustedValue(a, f, minute, None, dataFrequency)
    else portal.GetSpotValue(a, f, minute, dataFrequency)
  }

  /** What the body of a `handle_non_market_minutes` block sees of the bar data. */
  datatype View = View(adjustMinutes: bool, datetime: Option<int>)

  class BarData {
    const portal: DataPortal
    const dataFrequency: string
    const dailyMode: bool
    var adjustMinutes: bool
    /** Unset until the executor sets it on the first event. */
    var datetime: Option<int>

    constructor(portal: DataPortal, dataFrequency: string)
      ensures this.portal == portal && this.dataFrequency == dataFrequency
      ensures dailyMode == (dataFrequency == "daily")
      ensures !adjustMinutes && datetime.None?
    {
      this.portal := portal;
      this.dataFrequency := dataFrequency;
      dailyMode := dataFrequency == "daily";
      adjustMinutes := false;
      datetime := None;
    }

    /** `_get_current_minute` */
    function CurrentMinute(): (r: Result<Option<int>, BarDataError>)
      reads this
      ensures r.Err? <==> datetime.None? && (adjustMinutes || dailyMode)
      ensures !adjustMinutes && !dailyMode ==> r == Ok(datetime)
      ensures adjustMinutes && !dailyMode && datetime.Some? ==> r == Ok(Some(portal.calendar.previousMinute(datetime.value)))
    {
      CurrentMinuteOf(portal.calendar, dailyMode, adjustMinutes, datetime)
    }


    /**
     * `handle_non_market_minutes`: the block runs with adjusting on, and
     * adjusting is off afterwards whether or not the block raised.
     */
    method HandleNonMarketMinutes(block: View -> bool) returns (raised: bool)
      modifies this
      ensures raised == block(View(true, old(datetime)))
      ensures !adjustMinutes && datetime == old(datetime)
    {
      adjustMinutes := true;
      raised := block(View(adjustMinutes, datetime));
      adjustMinutes := false;
    }

    /**
     * `current`: the (asset, field) pairs are built asset-major, each
     * fetched at the current minute, and the values shaped by which sides
     * are lists. With no pair to fetch the minute is never asked for.
     */
    method CurrentOf(assets: Side<Asset>, fields: Side<string>)
      returns (r: Result<Current, BarDataError>, fetched: seq<(Asset, string)>, route: Route)
      ensures fetched == FetchArgs(assets.Items(), fields.Items())
      ensures route == (if adjustMinutes then AdjustedRoute else SpotRoute)
      ensures r.Err? <==> |fetched| > 0 && CurrentMinute().Err?
      ensures var adjust, m := adjustMinutes, CurrentMinute();
        r.Ok? && m.Ok? ==> r.value == Shape(assets, fields, (a, f) => Fetch(portal, adjust, dataFrequency, m.value, a, f))
    {
      var assetList := assets.Items();
      var fieldList := fields.Items();
      fetched := FetchPairs(assetList, fieldList);
      route := if adjustMinutes then AdjustedRoute else SpotRoute;
      FetchArgsEmpty(assetList, fieldList);
      var minute := CurrentMinute();
      if minute.Err? {
        if |fetched| > 0 {
          return Err(minute.error), fetched, route;
        }
        // no pair is fetched: the shape holds no value
        r := Ok(Shape(assets, fields, (a, f) => Number(None)));
        return;
      }
      var adjust := adjustMinutes;
      r := Ok(Shape(assets, fields, (a, f) => Fetch(portal, adjust, dataFrequency, minute.value, a, f)));
    }

    /**
     * `can_trade` for one asset or each of a list, in order. The adjusted
     * minute is computed first, so while adjusting an unset datetime raises
     * even for no asset.
     */
    function CanTrade(tradable: Asset -> bool, exchangeOpen: (Asset, int) -> bool, assets: seq<Asset>): (r: Result<seq<bool>, BarDataError>)
      reads this
      ensures r.Err? <==> ((adjustMinutes && CurrentMinute().Err?) ||
        exists i :: 0 <= i < |assets| && CanTradeForAsset(tradable, exchangeOpen, portal.calendar, dailyMode, assets[i], datetime).Err?)
      ensures r.Ok? ==> |r.value| == |assets|
      ensures r.Ok? ==> forall i :: 0 <= i < |assets| ==>
        Ok(r.value[i]) == CanTradeForAsset(tradable, exchangeOpen, portal.calendar, dailyMode, assets[i], datetime)
    {
      var dt := datetime;
      var adjusted := if adjustMinutes then CurrentMinute() else Ok(dt);
      if adjusted.Err? then Err(adjusted.error)
      else
        var rs := seq(|assets|, i requires 0 <= i < |assets| => CanTradeForAsset(tradable, exchangeOpen, portal.calendar, dailyMode, assets[i], dt));
        var r := AllOk(rs);
        assert r.Err? <==> exists i :: 0 <= i < |assets| && rs[i].Err?;
        assert forall i :: 0 <= i < |assets| ==> rs[i] == CanTradeForAsset(tradable, exchangeOpen, portal.calendar, dailyMode, assets[i], datetime);
        r
    }

    /**
     * `is_stale`: the adjusted minute is computed first, so while adjusting
     * an unset datetime raises even for no asset; the alive check uses the
     * datetime, and the spot values are read at the adjusted minute while
     * adjusting and at the datetime otherwise.
     */
    function IsStale(alive: (Asset, int) -> bool, assets: seq<Asset>): (r: Result<seq<bool>, BarDataError>)
      reads this
      ensures r.Err? <==> datetime.None? && (adjustMinutes || |assets| > 0)
      ensures r.Ok? ==> |r.value| == |assets|
      ensures var dt := datetime;
        r.Ok? && !adjustMinutes ==> forall i :: 0 <= i < |assets| ==>
          Ok(r.value[i]) == IsStaleForAsset(alive, (a, f) => portal.GetSpotValue(a, f, dt, dataFrequency), assets[i], dt)
      ensures var dt, m := datetime, CurrentMinute();
        r.Ok? && adjustMinutes ==> m.Ok? && forall i :: 0 <= i < |assets| ==>
          Ok(r.value[i]) == IsStaleForAsset(alive, (a, f) => portal.GetSpotValue(a, f, m.value, dataFrequency), assets[i], dt)
    {
      var dt := datetime;
      var adjusted := if adjustMinutes then CurrentMinute() else Ok(dt);
      if adjusted.Err? then Err(adjusted.error)
      else
        var at := adjusted.value;
        var rs := seq(|assets|, i requires 0 <= i < |assets| =>
          IsStaleForAsset(alive, (a, f) => portal.GetSpotValue(a, f, at, dataFrequency), assets[i], dt));
        var r := AllOk(rs);
        assert r.Err? <==> exists i :: 0 <= i < |assets| && rs[i].Err?;
        r
    }
  }
}
