/**
 * The paper-trading backend of the reversion example: a copy of the
 * Alpaca backend whose order looks the current position up by the
 * asset's symbol, whose trade-update handler deletes entries with `del`,
 * and which refuses the last-traded queries a paper account cannot serve.
 *
 * Positions are keyed by asset objects. A position table in which a key
 * is missing either yields a default amount (`missing == Some(d)`) or
 * raises `KeyError` (`missing == None`); which one the positions class
 * does is not part of this model, so it is a parameter.
 */
module PaperBackends {
  import opened Wrappers
  import opened Assets
  import opened Orders
  import opened OrderRules
  import opened Brokers
  import opened DataPortals
  import opened BarDatas
  import AlpacaBackends

  /** A key of the position table: an asset, or a bare symbol string (which no asset equals). */
  datatype PositionKey = ByAsset(asset: Asset) | BySymbol(symbol: Option<string>)

  datatype PaperError =
    | PositionKeyError            // `positions[...]` on a missing key of a raising table
    | OpenOrderKeyError(id: string) // `del _open_orders[id]` on an id not tracked
    | LastTradedNotSupported      // the paper account has no last-trade times
    | UnknownField(field: string) // the `assert field in (...)` of `get_spot_value`

  /**
   * The position table `positions` builds: each listed broker position
   * whose symbol resolves is stored under its asset with its quantity;
   * symbols that do not resolve are skipped.
   */
  function PositionTable(listed: seq<(string, int)>, find: string -> Option<Asset>): (m: map<PositionKey, int>)
    ensures forall k :: k in m ==> k.ByAsset?
  {
    if |listed| == 0 then map[]
    else
      var init := PositionTable(listed[..|listed| - 1], find);
      var (symbol, qty) := listed[|listed| - 1];
      var a := find(symbol);
      if a.Some? then init[ByAsset(a.value) := qty] else init
  }

  /** The loop of `positions`, proved to build `PositionTable`. */
  method Positions(listed: seq<(string, int)>, find: string -> Option<Asset>) returns (m: map<PositionKey, int>)
    ensures m == PositionTable(listed, find)
  {
    m := map[];
    var i := 0;
    while i < |listed|
      invariant 0 <= i <= |listed|
      invariant m == PositionTable(listed[..i], find)
    {
      assert listed[..i + 1][..i] == listed[..i];
      var (symbol, qty) := listed[i];
      var a := find(symbol);
      if a.Some? {
        m := m[ByAsset(a.value) := qty];
      }
      i := i + 1;
    }
    assert listed[..i] == listed;
  }

  /** `positions[key]`: the stored amount, or what the table does for a missing key. */
  function HeldAmount(positions: map<PositionKey, int>, key: PositionKey, missing: Option<int>): (r: Result<int, PaperError>)
    ensures key in positions ==> r == Ok(positions[key])
    ensures key !in positions ==> r == (if missing.Some? then Ok(missing.value) else Err(PositionKeyError))
  {
    if key in positions then Ok(positions[key])
    else if missing.Some? then Ok(missing.value) else Err(PositionKeyError)
  }

  /**
   * Where `order` looks the current position up: under the symbol string,
   * as the source does, or under the asset, as the Alpaca backend does.
   */
  datatype LookupRule = SymbolKey | AssetKey

  function KeyOf(rule: LookupRule, a: Asset): PositionKey
  {
    match rule
    case SymbolKey => BySymbol(a.symbol)
    case AssetKey => ByAsset(a)
  }

  /**
   * `order`: in compatible mode the position is looked up under the rule's
   * key, then the order is split and sent as in the Alpaca backend.
   */
  function PlaceOrderWith(rule: LookupRule, b: Book, asset: Asset, amount: int, style: ExecutionStyle, compatible: bool,
                          positions: map<PositionKey, int>, missing: Option<int>, freshId: string,
                          submit: Submit, lookup: string -> Asset): Result<(Book, Option<Order>), PaperError>
  {
    if compatible then
      var held :- HeldAmount(positions, KeyOf(rule, asset), missing);
      Ok(PlaceOrder(b, asset, amount, style, true, held, freshId, submit, lookup))
    else Ok(PlaceOrder(b, asset, amount, style, false, 0, freshId, submit, lookup))
  }

  /** `order` as written: the position is looked up under the symbol string. */
  function PlaceOrderAsWritten(b: Book, asset: Asset, amount: int, style: ExecutionStyle, compatible: bool,
                               positions: map<PositionKey, int>, missing: Option<int>, freshId: string,
                               submit: Submit, lookup: string -> Asset): (r: Result<(Book, Option<Order>), PaperError>)
    ensures !compatible ==> r == Ok(PlaceOrder(b, asset, amount, style, false, 0, freshId, submit, lookup))
    ensures compatible && BySymbol(asset.symbol) !in positions && missing.None? ==> r == Err(PositionKeyError)
    ensures compatible && BySymbol(asset.symbol) in positions ==>
      r == Ok(PlaceOrder(b, asset, amount, style, true, positions[BySymbol(asset.symbol)], freshId, submit, lookup))
  {
    PlaceOrderWith(SymbolKey, b, asset, amount, style, compatible, positions, missing, freshId, submit, lookup)
  }

  /** `order` as intended: the position is looked up under the asset, as the Alpaca backend does. */
  function PlaceOrderByAsset(b: Book, asset: Asset, amount: int, style: ExecutionStyle, compatible: bool,
                             positions: map<PositionKey, int>, missing: Option<int>, freshId: string,
                             submit: Submit, lookup: string -> Asset): (r: Result<(Book, Option<Order>), PaperError>)
    ensures !compatible ==> r == Ok(PlaceOrder(b, asset, amount, style, false, 0, freshId, submit, lookup))
    ensures compatible && ByAsset(asset) !in positions && missing.None? ==> r == Err(PositionKeyError)
    ensures compatible && ByAsset(asset) in positions ==>
      r == Ok(PlaceOrder(b, asset, amount, style, true, positions[ByAsset(asset)], freshId, submit, lookup))
  {
    PlaceOrderWith(AssetKey, b, asset, amount, style, compatible, positions, missing, freshId, submit, lookup)
  }

  /**
   * As written, the symbol-keyed lookup never finds a position: every
   * compatible order is placed as if nothing were held (or fails outright),
   * whatever position the table holds for the asset.
   */
  lemma AsWrittenIgnoresPosition(b: Book, asset: Asset, amount: int, style: ExecutionStyle,
                                 listed: seq<(string, int)>, find: string -> Option<Asset>, missing: Option<int>,
                                 freshId: string, submit: Submit, lookup: string -> Asset)
    ensures var positions := PositionTable(listed, find);
      var r := PlaceOrderAsWritten(b, asset, amount, style, true, positions, missing, freshId, submit, lookup);
      && (missing.None? ==> r == Err(PositionKeyError))
      && (missing.Some? ==> r == Ok(PlaceOrder(b, asset, amount, style, true, missing.value, freshId, submit, lookup)))
  {
    assert BySymbol(asset.symbol) !in PositionTable(listed, find);
  }

  /**
   * The discrepancy on a concrete order: short 10 shares, an order to buy
   * 15. Looked up by asset, 10 are sent to close the short and 5 wait for
   * the fill; as written (with a table that defaults to 0), all 15 are sent
   * at once and nothing waits.
   */
  lemma FlipNotSplitAsWritten(b: Book, asset: Asset, style: ExecutionStyle, freshId: string,
                              submit: Submit, lookup: string -> Asset)
    ensures var positions := map[ByAsset(asset) := -10];
      var written := PlaceOrderAsWritten(b, asset, 15, style, true, positions, Some(0), freshId, submit, lookup);
      var fixed := PlaceOrderByAsset(b, asset, 15, style, true, positions, Some(0), freshId, submit, lookup);
      && written.Ok? && written.value.0.pending == b.pending
      && fixed.Ok? && freshId in fixed.value.0.pending && fixed.value.0.pending[freshId] == Pending(asset, 5, style)
  {
    assert BySymbol(asset.symbol) != ByAsset(asset);
    assert SplitPlan(15, 0, true) == (15, None);
    assert SplitPlan(15, -10, true) == (10, Some(5));
  }

  /**
   * The trade-update handler with `del`: a fill of an order with a waiting
   * rest sends the rest through `order`, with its position lookup (which
   * may fail); a terminal event then deletes the waiting rest and the open
   * order, and deleting an open order not tracked fails after the other
   * changes are made.
   */
  function TradeUpdate(rule: LookupRule, b: Book, event: string, data: RawOrder, freshId: string,
                       positions: map<PositionKey, int>, missing: Option<int>,
                       submit: Submit, lookup: string -> Asset): (r: (Book, Option<PaperError>))
    ensures !Terminal(event) ==> r == (b.(open := b.open[data.clientOrderId := Order2Zp(data, lookup)]), None)
    ensures Terminal(event) && r.1.None? ==> data.clientOrderId !in r.0.open && data.clientOrderId !in r.0.pending
  {
    var id := data.clientOrderId;
    if id in b.pending && event == "fill" then
      var w := b.pending[id];
      match PlaceOrderWith(rule, b, w.asset, w.amount, w.style, true, positions, missing, freshId, submit, lookup)
      case Err(e) => (b, Some(e))
      case Ok((sent, _)) =>
        var sent := sent.(pending := sent.pending - {id});
        if id in sent.open then (sent.(open := sent.open - {id}), None) else (sent, Some(OpenOrderKeyError(id)))
    else
      var b := if id in b.pending && Terminal(event) then b.(pending := b.pending - {id}) else b;
      if !Terminal(event) then (b.(open := b.open[id := Order2Zp(data, lookup)]), None)
      else if id in b.open then (b.(open := b.open - {id}), None)
      else (b, Some(OpenOrderKeyError(id)))
  }

  /**
   * The handler fails on an untracked id exactly for a terminal event (when
   * the position lookup of a re-sent rest cannot fail and the rest is not
   * sent under that id).
   */
  lemma TradeUpdateFails(rule: LookupRule, b: Book, event: string, data: RawOrder, freshId: string, positions: map<PositionKey, int>,
                         d: int, submit: Submit, lookup: string -> Asset)
    requires freshId != data.clientOrderId
    ensures var (_, err) := TradeUpdate(rule, b, event, data, freshId, positions, Some(d), submit, lookup);
      && (err.Some? <==> Terminal(event) && data.clientOrderId !in b.open)
      && (err.Some? ==> err == Some(OpenOrderKeyError(data.clientOrderId)))
  {
    var id := data.clientOrderId;
    if id in b.pending && event == "fill" {
      var w := b.pending[id];
      var key := KeyOf(rule, w.asset);
      var held := if key in positions then positions[key] else d;
      assert HeldAmount(positions, key, Some(d)) == Ok(held);
      var sent := PlaceOrder(b, w.asset, w.amount, w.style, true, held, freshId, submit, lookup).0;
      assert id in sent.open <==> id in b.open;
    }
  }

  /**
   * Otherwise the handler does what the Alpaca handler does, with the held
   * amount read under the rule's key: as written, under the symbol string.
   */
  lemma TradeUpdateAgrees(rule: LookupRule, b: Book, event: string, data: RawOrder, freshId: string, positions: map<PositionKey, int>,
                          d: int, submit: Submit, lookup: string -> Asset)
    requires freshId != data.clientOrderId
    ensures var held := (a: Asset) => if KeyOf(rule, a) in positions then positions[KeyOf(rule, a)] else d;
      TradeUpdate(rule, b, event, data, freshId, positions, Some(d), submit, lookup).0
        == AlpacaBackends.TradeUpdate(b, event, data, freshId, held, submit, lookup)
  {
    if data.clientOrderId in b.pending && event == "fill" {
      FillAgrees(rule, b, data, freshId, positions, d, submit, lookup);
    } else {
      OtherAgrees(rule, b, event, data, freshId, positions, d, submit, lookup);
    }
  }

  /** The fill of an order with a waiting rest, in both handlers. */
  lemma FillAgrees(rule: LookupRule, b: Book, data: RawOrder, freshId: string, positions: map<PositionKey, int>,
                   d: int, submit: Submit, lookup: string -> Asset)
    requires freshId != data.clientOrderId && data.clientOrderId in b.pending
    ensures var held := (a: Asset) => if KeyOf(rule, a) in positions then positions[KeyOf(rule, a)] else d;
      TradeUpdate(rule, b, "fill", data, freshId, positions, Some(d), submit, lookup).0
        == AlpacaBackends.TradeUpdate(b, "fill", data, freshId, held, submit, lookup)
  {
    var held := (a: Asset) => if KeyOf(rule, a) in positions then positions[KeyOf(rule, a)] else d;
    var id := data.clientOrderId;
    var w := b.pending[id];
    assert HeldAmount(positions, KeyOf(rule, w.asset), Some(d)) == Ok(held(w.asset));
    var sent := PlaceOrder(b, w.asset, w.amount, w.style, true, held(w.asset), freshId, submit, lookup).0;
    assert id in sent.open <==> id in b.open;
    if id !in sent.open {
      assert sent.open - {id} == sent.open;
    }
  }

  /** Every other event, in both handlers. */
  lemma OtherAgrees(rule: LookupRule, b: Book, event: string, data: RawOrder, freshId: string, positions: map<PositionKey, int>,
                    d: int, submit: Submit, lookup: string -> Asset)
    requires !(data.clientOrderId in b.pending && event == "fill")
    ensures var held := (a: Asset) => if KeyOf(rule, a) in positions then positions[KeyOf(rule, a)] else d;
      TradeUpdate(rule, b, event, data, freshId, positions, Some(d), submit, lookup).0
        == AlpacaBackends.TradeUpdate(b, event, data, freshId, held, submit, lookup)
  {
    var id := data.clientOrderId;
    if Terminal(event) && id !in b.open {
      assert b.open - {id} == b.open;
    }
  }

  /** `get_last_traded_dt`: a paper account has none. */
  function GetLastTradedDt(asset: Asset): (r: Result<int, PaperError>)
    ensures r == Err(LastTradedNotSupported)
  {
    Err(LastTradedNotSupported)
  }

  /** The fields `get_spot_value` accepts. */
  predicate SpotField(field: string)
  {
    field in ["open", "high", "low", "close", "volume", "price", "last_traded"]
  }

  /** One bar of a symbol: a value per field. */
  type BarRow = string -> Option<real>

  /**
   * `_get_spot_bars`: per symbol, the field (`close` for `price`) of its
   * latest bar, or missing when the symbol has no bars.
   */
  function SpotBars(symbolBars: map<Option<string>, seq<BarRow>>, symbols: seq<Option<string>>, field: string): (rs: seq<Option<real>>)
    ensures |rs| == |symbols|
    ensures forall i :: 0 <= i < |symbols| ==>
      rs[i] == (if symbols[i] !in symbolBars || |symbolBars[symbols[i]]| == 0 then None
                else symbolBars[symbols[i]][|symbolBars[symbols[i]]| - 1](OhlcvField(field)))
  {
    seq(|symbols|, i requires 0 <= i < |symbols| =>
      if symbols[i] !in symbolBars || |symbolBars[symbols[i]]| == 0 then None
      else symbolBars[symbols[i]][|symbolBars[symbols[i]]| - 1](OhlcvField(field)))
  }

  /** The symbols of the assets, in order. */
  function SymbolsOf(assets: seq<Asset>): (ss: seq<Option<string>>)
    ensures |ss| == |assets| && forall i :: 0 <= i < |assets| ==> ss[i] == assets[i].symbol
  {
    seq(|assets|, i requires 0 <= i < |assets| => assets[i].symbol)
  }

  /**
   * `get_spot_value`: an unknown field fails the assertion; `last_traded`
   * in compatible mode is refused; otherwise the latest bars, one value
   * for a single asset and a list for several.
   */
  function GetSpotValue(assets: Side<Asset>, field: string, compatible: bool,
                        symbolBars: map<Option<string>, seq<BarRow>>): (r: Result<Side<Option<real>>, PaperError>)
    ensures !SpotField(field) ==> r == Err(UnknownField(field))
    ensures SpotField(field) && compatible && field == "last_traded" ==> r == Err(LastTradedNotSupported)
    ensures r.Ok? <==> SpotField(field) && !(compatible && field == "last_traded")
    ensures r.Ok? ==> (r.value.One? <==> assets.One?) && r.value.Items() == SpotBars(symbolBars, SymbolsOf(assets.Items()), field)
  {
    if !SpotField(field) then Err(UnknownField(field))
    else if compatible && field == "last_traded" then Err(LastTradedNotSupported)
    else
      var results := SpotBars(symbolBars, SymbolsOf(assets.Items()), field);
      if assets.One? then Ok(One(results[0])) else Ok(Many(results))
  }

  class PaperBackend {
    const submit: Submit
    const lookup: string -> Asset
    const positions: map<PositionKey, int>
    const missing: Option<int>
    var openOrders: map<string, Order>
    var pending: map<string, Pending>

    /** A backend tracking no orders. */
    constructor(submit: Submit, lookup: string -> Asset, positions: map<PositionKey, int>, missing: Option<int>)
      ensures this.submit == submit && this.lookup == lookup && this.positions == positions && this.missing == missing
      ensures openOrders == map[] && pending == map[]
    {
      this.submit := submit;
      this.lookup := lookup;
      this.positions := positions;
      this.missing := missing;
      openOrders := map[];
      pending := map[];
    }

    function Tables(): Book
      reads this
    {
      Book(openOrders, pending)
    }

    /** `order`, with the position looked up under the symbol string as written; a failed lookup changes nothing. */
    method Order(asset: Asset, amount: int, style: ExecutionStyle, compatible: bool, freshId: string)
      returns (r: Result<Option<Order>, PaperError>)
      modifies this
      ensures var expected := PlaceOrderAsWritten(old(Tables()), asset, amount, style, compatible, positions, missing, freshId, submit, lookup);
        && (expected.Err? ==> r == Err(expected.error) && Tables() == old(Tables()))
        && (expected.Ok? ==> r == Ok(expected.value.1) && Tables() == expected.value.0)
    {
      var now := amount;
      var position := 0;
      if compatible {
        var held := HeldAmount(positions, BySymbol(asset.symbol), missing);
        if held.Err? {
          return Err(held.error);
        }
        position := held.value;
        if IntAbs(amount) > IntAbs(position) && amount * position < 0 {
          pending := pending[freshId := Pending(asset, amount + position, style)];
          now := -position;
        }
      }
      ghost var plan := SplitPlan(amount, position, compatible);
      assert now == plan.0;
      assert pending == if plan.1.Some? then old(pending)[freshId := Pending(asset, plan.1.value, style)] else old(pending);
      var answer := submit(Request(asset, now, style, freshId));
      if answer.None? {
        r := Ok(None);
      } else {
        var z := Order2Zp(answer.value, lookup);
        openOrders := openOrders[freshId := z];
        r := Ok(Some(z));
      }
      assert (Tables(), r.value) == PlaceOrder(old(Tables()), asset, amount, style, compatible, position, freshId, submit, lookup);
    }

    /** The trade-update handler, taken as one atomic step; the error is the exception it ends with. */
    method HandleTradeUpdate(event: string, data: RawOrder, freshId: string) returns (err: Option<PaperError>)
      modifies this
      ensures (Tables(), err) == TradeUpdate(SymbolKey, old(Tables()), event, data, freshId, positions, missing, submit, lookup)
    {
      var id := data.clientOrderId;
      if id in pending {
        var waiting := pending[id];
        if event == "fill" {
          var sent := Order(waiting.asset, waiting.amount, waiting.style, true, freshId);
          if sent.Err? {
            return Some(sent.error);
          }
          pending := pending - {id};
        } else if event == "canceled" || event == "rejected" {
          pending := pending - {id};
        }
      }
      if Terminal(event) {
        if id !in openOrders {
          return Some(OpenOrderKeyError(id));
        }
        openOrders := openOrders - {id};
      } else {
        openOrders := openOrders[id := Order2Zp(data, lookup)];
      }
      err := None;
    }
  }
}
