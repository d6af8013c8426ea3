/**
 * The fixture backend of the unit tests: a few equities whose minute and
 * daily bars follow a fixed formula. The trading calendar's minutes and
 * sessions between the start and end dates are given.
 */
module Fixtures {
  import opened Wrappers
  import opened Strings
  import opened Assets
  import opened Orders
  import opened OrderedDicts
  import opened BarFrames
  import opened DataPortals
  import opened BarDatas

  // ---- Bars

  /**
   * `create_bars(times, offset)`: one bar per time; row `i` opens and
   * closes at `i + 10 + offset`, reaches `i + 15 + offset` and
   * `i + 8 + offset`, and trades `100 + offset`.
   */
  function CreateBars(times: seq<int>, offset: int): (r: seq<Bar>)
    ensures |r| == |times|
    ensures forall i :: 0 <= i < |r| ==> r[i].time == times[i]
    ensures forall i :: 0 <= i < |r| ==> r[i].open == r[i].close == (i + 10 + offset) as real
    ensures forall i :: 0 <= i < |r| ==> r[i].high == r[i].open + 5.0 && r[i].low == r[i].open - 2.0
    ensures forall i :: 0 <= i < |r| ==> r[i].volume == 100 + offset
  {
    seq(|times|, i requires 0 <= i < |times| =>
      Bar(times[i], (i + 10 + offset) as real, (i + 15 + offset) as real, (i + 8 + offset) as real,
          (i + 10 + offset) as real, 100 + offset))
  }

  /** Every bar spans seven between low and high, and each close is one above the one before. */
  lemma CreateBarsShape(times: seq<int>, offset: int)
    ensures var r := CreateBars(times, offset);
      && (forall i :: 0 <= i < |r| ==> r[i].high - r[i].low == 7.0 && r[i].low < r[i].close < r[i].high)
      && (forall i :: 0 < i < |r| ==> r[i].close == r[i - 1].close + 1.0)
      && (|r| > 0 ==> r[|r| - 1].close == (|times| - 1 + 10 + offset) as real)
  {
  }

  // ---- Equities

  /** The ids used when none are given. */
  const DefaultIds: seq<string> := ["asset-0", "asset-1", "asset-2"]

  /** `assets or [...]`: a missing or empty list of ids falls back to the three defaults. */
  function AssetIds(assets: Option<seq<string>>): (ids: seq<string>)
    ensures assets.Some? && |assets.value| > 0 ==> ids == assets.value
    ensures assets.None? || |assets.value| == 0 ==> ids == DefaultIds
    ensures |ids| > 0
  {
    if assets.Some? && |assets.value| > 0 then assets.value else DefaultIds
  }

  /** An equity's symbol: its id upper-cased, without dashes. */
  function EquitySymbol(id: string): (s: string)
    ensures '-' !in s
    ensures forall k :: 0 <= k < |s| ==> s[k] in Upper(id)
  {
    WithoutFrom(Upper(id), '-');
    Without(Upper(id), '-')
  }

  /** Removing a character keeps only characters of the string. */
  lemma {:induction false} WithoutFrom(s: string, c: char)
    ensures forall k :: 0 <= k < |Without(s, c)| ==> Without(s, c)[k] in s
    decreases |s|
  {
    if |s| > 0 {
      WithoutFrom(s[..|s| - 1], c);
      assert forall x :: x in s[..|s| - 1] ==> x in s;
    }
  }

  /** The test's symbol: `asset-1` is `ASSET1`. */
  lemma EquitySymbolExample()
    ensures EquitySymbol("asset-1") == "ASSET1"
  {
    var s, u := "asset-1", Upper("asset-1");
    assert u == "ASSET-1" by {
      assert |u| == 7;
      assert s[0] == 'a' && s[1] == 's' && s[2] == 's' && s[3] == 'e' && s[4] == 't' && s[5] == '-' && s[6] == '1';
      assert UpperChar('a') == 'A' && UpperChar('s') == 'S' && UpperChar('e') == 'E' && UpperChar('t') == 'T';
      assert UpperChar('-') == '-' && UpperChar('1') == '1';
      assert forall k :: 0 <= k < 7 ==> u[k] == UpperChar(s[k]);
    }
    assert Without("ASSET-", '-') == "ASSET" by {
      assert "ASSET-"[..5] == "ASSET";
      WithoutAbsent("ASSET", '-');
    }
    assert Without("ASSET-1", '-') == "ASSET1" by {
      assert "ASSET-1"[..6] == "ASSET-";
      assert Without("ASSET-1", '-') == Without("ASSET-", '-') + "1";
    }
  }

  /** Removing a character that does not occur changes nothing. */
  lemma {:induction false} WithoutAbsent(s: string, c: char)
    requires c !in s
    ensures Without(s, c) == s
    decreases |s|
  {
    if |s| > 0 {
      var pre, last := s[..|s| - 1], s[|s| - 1];
      assert last != c by {
        assert s[|s| - 1] in s;
      }
      assert c !in pre by {
        assert forall k :: 0 <= k < |pre| ==> pre[k] == s[k];
      }
      WithoutAbsent(pre, c);
      assert Without(s, c) == pre + [last];
      assert pre + [last] == s;
    }
  }

  /**
   * `get_equities`: one equity per id, on NYSE, under the id's symbol, with
   * an empty name. The start and end dates are passed as keyword arguments
   * that `Asset.__init__` ignores, so they stay `None`.
   */
  function Equities(ids: seq<string>, hash: string -> int): (r: seq<Asset>)
    ensures |r| == |ids|
    ensures forall i :: 0 <= i < |r| ==> r[i].sid == ids[i] && r[i].assetType == EquityAsset
    ensures forall i :: 0 <= i < |r| ==> r[i].symbol == Some(EquitySymbol(ids[i])) && r[i].exchange == Some("NYSE")
    ensures forall i :: 0 <= i < |r| ==> r[i].startDate.None? && r[i].endDate.None?
  {
    seq(|ids|, i requires 0 <= i < |ids| =>
      NewAsset(EquityAsset, hash, ids[i], Some("NYSE"), Some(EquitySymbol(ids[i])), Some("")))
  }

  /** Distinct ids give distinct equities. */
  lemma EquitiesDistinct(ids: seq<string>, hash: string -> int, i: nat, j: nat)
    requires i < j < |ids| && ids[i] != ids[j]
    ensures Equities(ids, hash)[i] != Equities(ids, hash)[j]
  {
  }

  // ---- The fixture

  /** The fixture's state after `__init__`: its ids and the bars of each equity, per frequency. */
  datatype Fixture = Fixture(
    ids: seq<string>,
    hash: string -> int,
    minutely: seq<(Asset, seq<Bar>)>,
    daily: seq<(Asset, seq<Bar>)>)

  /** The k-th equity with the bars built for it at offset k. */
  function BarItems(equities: seq<Asset>, times: seq<int>): (items: seq<(Asset, seq<Bar>)>)
    ensures |items| == |equities|
    ensures forall k :: 0 <= k < |items| ==> items[k] == (equities[k], CreateBars(times, k))
  {
    seq(|equities|, k requires 0 <= k < |equities| => (equities[k], CreateBars(times, k)))
  }

  /** The `for i, asset in enumerate(...)` loop of `__init__`. */
  method BuildBars(equities: seq<Asset>, times: seq<int>) returns (d: seq<(Asset, seq<Bar>)>)
    ensures d == FromItems(BarItems(equities, times))
  {
    var items := BarItems(equities, times);
    d := [];
    var i := 0;
    while i < |equities|
      invariant 0 <= i <= |equities|
      invariant d == FromItems(items[..i])
    {
      assert items[..i + 1][..i] == items[..i];
      d := Put(d, equities[i], CreateBars(times, i));
      i := i + 1;
    }
    assert items[..i] == items;
  }

  /**
   * `Backend(start, end, assets)`: `minutes` and `days` are the calendar's
   * minutes and sessions between the two dates.
   */
  function NewFixture(assets: Option<seq<string>>, minutes: seq<int>, days: seq<int>, hash: string -> int): (f: Fixture)
    ensures f.ids == AssetIds(assets) && f.hash == hash
  {
    var equities := Equities(AssetIds(assets), hash);
    Fixture(AssetIds(assets), hash, FromItems(BarItems(equities, minutes)), FromItems(BarItems(equities, days)))
  }

  /** With distinct ids, the k-th equity's minute and daily bars are those of offset k. */
  lemma FixtureBars(assets: Option<seq<string>>, minutes: seq<int>, days: seq<int>, hash: string -> int, k: nat)
    requires var ids := AssetIds(assets); forall i, j :: 0 <= i < j < |ids| ==> ids[i] != ids[j]
    requires k < |AssetIds(assets)|
    ensures var f := NewFixture(assets, minutes, days, hash); var e := Equities(f.ids, hash)[k];
      && Get(f.minutely, e) == Some(CreateBars(minutes, k))
      && Get(f.daily, e) == Some(CreateBars(days, k))
  {
    var ids := AssetIds(assets);
    var equities := Equities(ids, hash);
    forall i | k < i < |ids| ensures equities[i] != equities[k] {
      EquitiesDistinct(ids, hash, k, i);
    }
    BarsAt(equities, minutes, k);
    BarsAt(equities, days, k);
  }

  /** An equity not repeated later keeps the bars built for it. */
  lemma BarsAt(equities: seq<Asset>, times: seq<int>, k: nat)
    requires k < |equities| && forall i :: k < i < |equities| ==> equities[i] != equities[k]
    ensures Get(FromItems(BarItems(equities, times)), equities[k]) == Some(CreateBars(times, k))
  {
    var items := BarItems(equities, times);
    FromItemsGet(items, equities[k]);
    assert items[k] == (equities[k], CreateBars(times, k));
  }

  /** Why a fixture call raises. */
  datatype FixtureError = UnknownAsset | UnknownField(field: string) | NoBars | NothingToConcatenate

  /** The bars a spot value reads: daily exactly when the frequency contains a `d`. */
  function SpotTable(f: Fixture, dataFrequency: string): seq<(Asset, seq<Bar>)>
  {
    if 'd' in dataFrequency then f.daily else f.minutely
  }

  /** The bars `get_bars` reads: minutely exactly when the frequency contains an `m`. */
  function BarsTable(f: Fixture, dataFrequency: string): seq<(Asset, seq<Bar>)>
  {
    if 'm' in dataFrequency then f.minutely else f.daily
  }

  /** The column a spot value reads: `price` is read as `close`. */
  function SpotColumn(field: string): string
  {
    if field == "price" then "close" else field
  }

  /**
   * `bars[asset][field].iloc[-1]`: the field of the asset's last bar. An
   * asset without bars, a field that is not a column, and an empty frame
   * raise, in that order.
   */
  function SpotOne(table: seq<(Asset, seq<Bar>)>, asset: Asset, field: string): (r: Result<real, FixtureError>)
    ensures Get(table, asset).None? ==> r == Err(UnknownAsset)
    ensures Get(table, asset).Some? && SpotColumn(field) !in Fields ==> r == Err(UnknownField(SpotColumn(field)))
    ensures Get(table, asset).Some? && SpotColumn(field) in Fields && |Get(table, asset).value| == 0 ==> r == Err(NoBars)
    ensures r.Ok? <==> Get(table, asset).Some? && SpotColumn(field) in Fields && |Get(table, asset).value| > 0
    ensures r.Ok? ==> var df := Get(table, asset).value;
      Some(r.value) == FieldOf(df[|df| - 1], SpotColumn(field))
  {
    var column := SpotColumn(field);
    match Get(table, asset)
    case None => Err(UnknownAsset)
    case Some(df) =>
      if column !in Fields then Err(UnknownField(column))
      else if |df| == 0 then Err(NoBars)
      else Ok(FieldOf(df[|df| - 1], column).value)
  }

  /** A list of assets: their values in order, or the first asset's error. */
  function SpotList(table: seq<(Asset, seq<Bar>)>, assets: seq<Asset>, field: string): (r: Result<seq<real>, FixtureError>)
    ensures r.Ok? <==> forall i :: 0 <= i < |assets| ==> SpotOne(table, assets[i], field).Ok?
    ensures r.Ok? ==> |r.value| == |assets| && forall i :: 0 <= i < |assets| ==> r.value[i] == SpotOne(table, assets[i], field).value
    ensures r.Err? ==> exists i :: 0 <= i < |assets| && SpotOne(table, assets[i], field) == Err(r.error) &&
                                   forall j :: 0 <= j < i ==> SpotOne(table, assets[j], field).Ok?
  {
    if |assets| == 0 then Ok([])
    else
      var first := SpotOne(table, assets[0], field);
      var rest := SpotList(table, assets[1..], field);
      assert forall i :: 1 <= i < |assets| ==> assets[i] == assets[1..][i - 1];
      if first.Err? then Err(first.error)
      else if rest.Err? then
        var i :| 0 <= i < |assets[1..]| && SpotOne(table, assets[1..][i], field) == Err(rest.error) &&
                 forall j :: 0 <= j < i ==> SpotOne(table, assets[1..][j], field).Ok?;
        assert SpotOne(table, assets[i + 1], field) == Err(rest.error);
        Err(rest.error)
      else Ok([first.value] + rest.value)
  }

  /** A spot value: one number for one asset, a series for a list. */
  datatype SpotValue = OneValue(value: real) | SeriesOf(values: seq<real>)

  /** `get_spot_value` (and `get_adjusted_value`, which calls it). */
  function GetSpotValue(f: Fixture, assets: Side<Asset>, field: string, dataFrequency: string): (r: Result<SpotValue, FixtureError>)
    ensures assets.One? ==> match SpotOne(SpotTable(f, dataFrequency), assets.item, field)
      case Ok(v) => r == Ok(OneValue(v))
      case Err(e) => r == Err(e)
    ensures assets.Many? ==> match SpotList(SpotTable(f, dataFrequency), assets.items, field)
      case Ok(vs) => r == Ok(SeriesOf(vs))
      case Err(e) => r == Err(e)
  {
    var table := SpotTable(f, dataFrequency);
    match assets
    case One(a) => (match SpotOne(table, a, field) case Ok(v) => Ok(OneValue(v)) case Err(e) => Err(e))
    case Many(xs) => (match SpotList(table, xs, field) case Ok(vs) => Ok(SeriesOf(vs)) case Err(e) => Err(e))
  }

  /**
   * `get_bars`: per asset, the last `barCount` rows of its bars (all of
   * them for a zero count); an asset without bars raises, and so does an
   * empty list, which leaves no frame to join (`pd.concat([])`).
   */
  method GetBars(f: Fixture, assets: Side<Asset>, dataFrequency: string, barCount: int) returns (r: Result<seq<seq<Bar>>, FixtureError>)
    ensures r.Ok? <==> |assets.Items()| > 0 && forall i :: 0 <= i < |assets.Items()| ==> Get(BarsTable(f, dataFrequency), assets.Items()[i]).Some?
    ensures r.Ok? ==> |r.value| == |assets.Items()| && forall i :: 0 <= i < |assets.Items()| ==>
      r.value[i] == Tail(Get(BarsTable(f, dataFrequency), assets.Items()[i]).value, barCount)
    ensures r.Err? ==> r.error == (if |assets.Items()| == 0 then NothingToConcatenate else UnknownAsset)
  {
    var xs := assets.Items();
    var table := BarsTable(f, dataFrequency);
    var items: seq<seq<Bar>> := [];
    var i := 0;
    while i < |xs|
      invariant 0 <= i <= |xs|
      invariant |items| == i
      invariant forall j :: 0 <= j < i ==> Get(table, xs[j]).Some? && items[j] == Tail(Get(table, xs[j]).value, barCount)
    {
      match Get(table, xs[i])
      case None =>
        return Err(UnknownAsset);
      case Some(df) =>
        items := items + [Tail(df, barCount)];
      i := i + 1;
    }
    r := if |xs| == 0 then Err(NothingToConcatenate) else Ok(items);
  }

  /** `time_skew`: the fixture's clock has no skew. */
  const TimeSkew: int := 0

  /**
   * `all_orders`: always the same three open orders, whatever is asked.
   * The source gives the bare symbol `ASSET1` or `ASSET2` as the orders'
   * asset; here that is an asset whose sid is the symbol.
   */
  function AllOrders(hash: string -> int): (r: seq<(string, Order)>)
    ensures Keys(r) == ["o01", "o02", "o03"]
    ensures forall i :: 0 <= i < |r| ==> r[i].1.id == r[i].0 && r[i].1.rawStatus == Open && r[i].1.filled == 0
    ensures r[0].1.amount == 2 && r[1].1.amount == 5 && r[2].1.amount == 3
    ensures r[0].1.asset == r[1].1.asset != r[2].1.asset
    ensures r[0].1.dt < r[1].1.dt == r[2].1.dt
  {
    var a1 := NewAsset(PlainAsset, hash, "ASSET1", None, None, None);
    var a2 := NewAsset(PlainAsset, hash, "ASSET2", None, None, None);
    // 2018-10-31 09:40 and 09:45 New York time, as UTC minutes.
    [("o01", NewOrder(25683220, a1, 2, None, None, 0, 0.0, Some("o01"), "")),
     ("o02", NewOrder(25683225, a1, 5, None, None, 0, 0.0, Some("o02"), "")),
     ("o03", NewOrder(25683225, a2, 3, None, None, 0, 0.0, Some("o03"), ""))]
  }

  // ---- The unit tests' figures

  /**
   * The default fixture over two sessions of 390 minutes: three equities;
   * the first one's last minute bar opens at 789; a minute request keeps
   * 500 bars and a daily one the two sessions.
   */
  lemma DefaultFixtureFigures(minutes: seq<int>, days: seq<int>, hash: string -> int)
    requires |minutes| == 780 && |days| == 2
    ensures var f := NewFixture(None, minutes, days, hash); var e := Equities(f.ids, hash)[0];
      && |Equities(f.ids, hash)| == 3
      && Get(f.minutely, e) == Some(CreateBars(minutes, 0))
      && CreateBars(minutes, 0)[779].open == 789.0
      && CreateBars(minutes, 0)[779].volume == 100
      && |Tail(CreateBars(minutes, 0), 500)| == 500
      && |Tail(CreateBars(days, 0), 500)| == 2
  {
    FixtureBars(None, minutes, days, hash, 0);
  }
}
