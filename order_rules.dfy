/**
 * The rules the algorithm applies before an order reaches the backend:
 * rounding the share count, checking that the asset may be ordered,
 * validating the parameters against the initialisation flag and the
 * trading controls, turning limit and stop prices into an execution style,
 * and sizing orders by value, by percentage of the portfolio and towards a
 * target position. Each `order*` API call is a pure plan here: the
 * submission it would hand to the backend, or the error it raises.
 */
module OrderRules {
  import opened Wrappers
  import opened TimeModel
  import opened Assets

  /** The largest share count `order` lets through (`int(1e+11)`). */
  const MaxShares: int := 100000000000

  /** How close to an integer a share count must be to be rounded to it. */
  const RoundingTolerance: real := 0.0001

  function Abs(x: real): real
  {
    if x < 0.0 then -x else x
  }

  /** `int(x)`: the integer part of `x`, rounded toward zero. */
  function Trunc(x: real): (n: int)
    ensures 0.0 <= x ==> n as real <= x < n as real + 1.0
    ensures x < 0.0 ==> n as real - 1.0 < x <= n as real
  {
    if x >= 0.0 then x.Floor else -((-x).Floor)
  }

  /**
   * `round_order`: the integer within 0.0001 of `amount` if there is one,
   * otherwise `amount` truncated toward zero.
   */
  function RoundOrder(amount: real): (n: int)
    ensures Abs(amount - n as real) <= RoundingTolerance || n == Trunc(amount)
  {
    var f := amount.Floor;
    if amount - f as real <= RoundingTolerance then f
    else if (f + 1) as real - amount <= RoundingTolerance then f + 1
    else Trunc(amount)
  }

  /** An integer within the tolerance is the rounded count, and it is the only one. */
  lemma RoundOrderNear(amount: real, k: int)
    requires Abs(amount - k as real) <= RoundingTolerance
    ensures RoundOrder(amount) == k
  {
    var f := amount.Floor;
    assert k == f || k == f + 1;
  }

  /** Away from every integer, the count is truncated toward zero, never away from it. */
  lemma RoundOrderFar(amount: real)
    requires amount - amount.Floor as real > RoundingTolerance
    requires (amount.Floor + 1) as real - amount > RoundingTolerance
    ensures RoundOrder(amount) == Trunc(amount)
    ensures Abs(RoundOrder(amount) as real) < Abs(amount)
    ensures 0.0 <= amount ==> 0 <= RoundOrder(amount)
    ensures amount <= 0.0 ==> RoundOrder(amount) <= 0
  {
  }

  /** The examples of the doc comment: 3.9999 gives 4, 5.5 gives 5, -5.5 gives -5. */
  lemma RoundOrderExamples()
    ensures RoundOrder(3.9999) == 4
    ensures RoundOrder(5.5) == 5
    ensures RoundOrder(-5.5) == -5
  {
    RoundOrderNear(3.9999, 4);
    RoundOrderFar(5.5);
    assert (-5.5).Floor == -6;
    RoundOrderFar(-5.5);
  }

  /** The execution styles an order can carry. */
  datatype ExecutionStyle =
    | MarketOrder
    | LimitOrder(limit: real)
    | StopOrder(stop: real)
    | StopLimitOrder(limit: real, stop: real)

  /** The limit price a style carries, if any. */
  function LimitOf(s: ExecutionStyle): Option<real>
  {
    match s
    case LimitOrder(l) => Some(l)
    case StopLimitOrder(l, _) => Some(l)
    case _ => None
  }

  /** The stop price a style carries, if any. */
  function StopOf(s: ExecutionStyle): Option<real>
  {
    match s
    case StopOrder(p) => Some(p)
    case StopLimitOrder(_, p) => Some(p)
    case _ => None
  }

  /** Python's truth value of an optional price: given and non-zero. */
  predicate Given(p: Option<real>)
  {
    p.Some? && p.value != 0.0
  }

  /** Why an order call raises. */
  datatype DelistReason = NotTradable | NoLastPrice

  datatype AlgoError =
    | OrderDuringInitialize(msg: string)
    | UnsupportedOrderParameters(msg: string)
    | TradingControlViolation
    | CannotOrderDelistedAsset(asset: Asset, reason: DelistReason)
    | OrderOverflow(msg: string)
    | OrderInBeforeTradingStart
    | StyleAssertionFailed
    | NoDatetime
    | IncomparableDates
    | RegisterTradingControlPostInit
    | RegisterAccountControlPostInit

  const InitializeMessage := "order() can only be called from within handle_data()"
  const LimitAndStyleMessage := "Passing both limit_price and style is not supported."
  const StopAndStyleMessage := "Passing both stop_price and style is not supported."
  const NonAssetMessage :=
    "Passing non-Asset argument to 'order()' is not supported. Use 'sid()' or 'symbol()' methods to look up an Asset."
  const OverflowMessage := "Can't order more than 100000000000 shares"

  /**
   * `__convert_order_params_for_blotter`: a given style is kept (and the
   * assertion that no price came with it fails otherwise, even for a zero
   * price); without one, the given prices pick the style.
   */
  function ConvertOrderParams(limit: Option<real>, stop: Option<real>, style: Option<ExecutionStyle>)
    : (r: Result<ExecutionStyle, AlgoError>)
    ensures r.Err? <==> style.Some? && (limit.Some? || stop.Some?)
    ensures r.Err? ==> r.error == StyleAssertionFailed
    ensures style.Some? && r.Ok? ==> r.value == style.value
  {
    if style.Some? then
      if limit.None? && stop.None? then Ok(style.value) else Err(StyleAssertionFailed)
    else if Given(limit) && Given(stop) then Ok(StopLimitOrder(limit.value, stop.value))
    else if Given(limit) then Ok(LimitOrder(limit.value))
    else if Given(stop) then Ok(StopOrder(stop.value))
    else Ok(MarketOrder)
  }

  /**
   * Without a style, the converted style carries exactly the given
   * (non-zero) limit and stop prices, and a zero price counts as none.
   */
  lemma ConvertCarriesPrices(limit: Option<real>, stop: Option<real>)
    ensures var r := ConvertOrderParams(limit, stop, None);
      r.Ok?
      && LimitOf(r.value) == (if Given(limit) then limit else None)
      && StopOf(r.value) == (if Given(stop) then stop else None)
    ensures !Given(limit) && !Given(stop) ==> ConvertOrderParams(limit, stop, None) == Ok(MarketOrder)
  {
  }

  /**
   * A trading control, such as a maximum order size or long-only. Its
   * rules live in a module outside this model; it is given by what it
   * rejects: an asset and a share count, seen with the portfolio and the
   * algorithm's time.
   */
  datatype TradingControl = TradingControl(rejects: (Asset, int, Portfolio, int) -> bool)

  /** An account control, registered and kept but checked outside this model. */
  datatype AccountControl = AccountControl(name: string)

  /** The algorithm's portfolio as the backend reports it: its value and the share count held per asset. */
  datatype Portfolio = Portfolio(portfolioValue: real, positions: map<Asset, int>)

  /** A price difference that `tolerant_equals` treats as zero; never negative. */
  type Tolerance = t: real | t >= 0.0

  /** What the current bar data tells about an asset: whether it trades and its last price (`None` for NaN). */
  datatype CurrentData = CurrentData(canTrade: Asset -> bool, price: Asset -> Option<real>, zeroTolerance: Tolerance)

  /**
   * What an order call sees of the algorithm: its two flags, its controls,
   * its time (unset before the first bar), the portfolio its `portfolio`
   * property yields, and the current bar data.
   */
  datatype OrderContext = OrderContext(
    initialized: bool,
    inBeforeTradingStart: bool,
    controls: seq<TradingControl>,
    datetime: Option<int>,
    portfolio: Portfolio,
    data: CurrentData)

  /** The first argument of an `order*` call: an asset, or anything else. */
  datatype Orderable = AnAsset(asset: Asset) | NotAnAsset

  /** Every control accepts the order; with any control at all, the time must be set. */
  predicate ControlsAccept(c: OrderContext, asset: Asset, amount: int)
  {
    |c.controls| > 0 ==>
      c.datetime.Some?
      && forall i :: 0 <= i < |c.controls| ==> !c.controls[i].rejects(asset, amount, c.portfolio, c.datetime.value)
  }

  /**
   * `validate_order_params`: ordering before initialisation fails first,
   * then a price combined with a style, then the first control that
   * rejects the order. The controls ask for the time, which fails while
   * it is unset.
   */
  function ValidateOrderParams(c: OrderContext, asset: Asset, amount: int, limit: Option<real>,
                               stop: Option<real>, style: Option<ExecutionStyle>): (r: Result<(), AlgoError>)
    ensures !c.initialized ==> r == Err(OrderDuringInitialize(InitializeMessage))
    ensures c.initialized && style.Some? && Given(limit) ==> r == Err(UnsupportedOrderParameters(LimitAndStyleMessage))
    ensures c.initialized && style.Some? && !Given(limit) && Given(stop) ==>
      r == Err(UnsupportedOrderParameters(StopAndStyleMessage))
    ensures r.Ok? <==> c.initialized && !(style.Some? && (Given(limit) || Given(stop))) && ControlsAccept(c, asset, amount)
  {
    if !c.initialized then Err(OrderDuringInitialize(InitializeMessage))
    else if style.Some? && Given(limit) then Err(UnsupportedOrderParameters(LimitAndStyleMessage))
    else if style.Some? && Given(stop) then Err(UnsupportedOrderParameters(StopAndStyleMessage))
    else if |c.controls| == 0 then Ok(())
    else if c.datetime.None? then Err(NoDatetime)
    else if exists i :: 0 <= i < |c.controls| && c.controls[i].rejects(asset, amount, c.portfolio, c.datetime.value)
    then Err(TradingControlViolation)
    else Ok(())
  }

  /** The day of `datetime` is after the asset's end date or its auto-close date, both known. */
  predicate PastAutoClose(a: Asset, datetime: Option<int>)
  {
    a.autoCloseDate.Some? && a.endDate.Some? && datetime.Some?
    && (DayLabel(datetime.value) > a.endDate.value || DayLabel(datetime.value) > a.autoCloseDate.value)
  }

  /**
   * `_can_order_asset`: anything but an asset is refused with an error; an
   * asset with an auto-close date cannot be ordered after the earlier of
   * its end date and that date (comparing with a missing end date fails);
   * every other asset can.
   */
  function CanOrderAsset(asset: Orderable, datetime: Option<int>): (r: Result<bool, AlgoError>)
    ensures asset.NotAnAsset? ==> r == Err(UnsupportedOrderParameters(NonAssetMessage))
    ensures asset.AnAsset? && asset.asset.autoCloseDate.None? ==> r == Ok(true)
    ensures r == Ok(false) <==> asset.AnAsset? && PastAutoClose(asset.asset, datetime)
  {
    match asset
    case NotAnAsset => Err(UnsupportedOrderParameters(NonAssetMessage))
    case AnAsset(a) =>
      if a.autoCloseDate.None? then Ok(true)
      else if datetime.None? then Err(NoDatetime)
      else if a.endDate.None? then Err(IncomparableDates)
      else
        var last := if a.endDate.value < a.autoCloseDate.value then a.endDate.value else a.autoCloseDate.value;
        Ok(!(DayLabel(datetime.value) > last))
  }

  /** What `order` hands to the backend. */
  datatype Submission = Submission(asset: Asset, amount: int, style: ExecutionStyle)

  /** `_calculate_order`: the rounded count, validated, and the converted style. */
  function CalculateOrder(c: OrderContext, asset: Asset, amount: real, limit: Option<real>,
                          stop: Option<real>, style: Option<ExecutionStyle>): (r: Result<(int, ExecutionStyle), AlgoError>)
    ensures r.Ok? ==> r.value.0 == RoundOrder(amount)
    ensures r.Ok? <==>
      (ValidateOrderParams(c, asset, RoundOrder(amount), limit, stop, style).Ok?
       && ConvertOrderParams(limit, stop, style).Ok?)
  {
    var n := RoundOrder(amount);
    var _ :- ValidateOrderParams(c, asset, n, limit, stop, style);
    var s :- ConvertOrderParams(limit, stop, style);
    Ok((n, s))
  }

  /**
   * `order`: refused while `before_trading_start` runs; nothing is ordered
   * for an asset past its auto-close date or for a count that rounds to
   * zero; a count above the share limit overflows. Otherwise the plan is
   * the submission.
   */
  function PlanOrder(c: OrderContext, asset: Orderable, amount: real, limit: Option<real>,
                     stop: Option<real>, style: Option<ExecutionStyle>): (r: Result<Option<Submission>, AlgoError>)
    ensures c.inBeforeTradingStart ==> r == Err(OrderInBeforeTradingStart)
    ensures r.Ok? && r.value.Some? ==>
      asset.AnAsset? && r.value.value.asset == asset.asset && r.value.value.amount != 0 && r.value.value.amount <= MaxShares
  {
    if c.inBeforeTradingStart then Err(OrderInBeforeTradingStart)
    else
      var can :- CanOrderAsset(asset, c.datetime);
      if !can then Ok(None)
      else
        var calculated :- CalculateOrder(c, asset.asset, amount, limit, stop, style);
        if calculated.0 == 0 then Ok(None)
        else if calculated.0 > MaxShares then Err(OrderOverflow(OverflowMessage))
        else Ok(Some(Submission(asset.asset, calculated.0, calculated.1)))
  }

  /** The plan of `order` when it gets past the flag and the asset check. */
  function Admitted(c: OrderContext, asset: Orderable, amount: real, limit: Option<real>,
                    stop: Option<real>, style: Option<ExecutionStyle>): bool
  {
    !c.inBeforeTradingStart && CanOrderAsset(asset, c.datetime) == Ok(true)
    && CalculateOrder(c, asset.asset, amount, limit, stop, style).Ok?
  }

  /**
   * The outcome of `order` once admitted: nothing for a zero count, the
   * overflow error exactly for counts above the limit, and otherwise the
   * rounded count in the converted style. A sale is never checked against
   * the limit.
   */
  lemma PlanOrderAdmitted(c: OrderContext, asset: Orderable, amount: real, limit: Option<real>,
                          stop: Option<real>, style: Option<ExecutionStyle>)
    requires Admitted(c, asset, amount, limit, stop, style)
    ensures var p := PlanOrder(c, asset, amount, limit, stop, style);
      var n := RoundOrder(amount);
      (p == Ok(None) <==> n == 0)
      && (p == Err(OrderOverflow(OverflowMessage)) <==> n > MaxShares)
      && (n != 0 && n <= MaxShares ==>
        p == Ok(Some(Submission(asset.asset, n, ConvertOrderParams(limit, stop, style).value))))
  {
  }

  /** A sale of any size, even beyond the share limit, passes the overflow check. */
  lemma LargeSaleSubmitted(c: OrderContext, asset: Orderable, limit: Option<real>,
                           stop: Option<real>, style: Option<ExecutionStyle>)
    requires Admitted(c, asset, -200000000000.0, limit, stop, style)
    ensures PlanOrder(c, asset, -200000000000.0, limit, stop, style).Ok?
    ensures PlanOrder(c, asset, -200000000000.0, limit, stop, style).value.value.amount == -2 * MaxShares
  {
    RoundOrderNear(-200000000000.0, -200000000000);
  }

  /** Requests for the six `order*` API functions. */
  datatype OrderRequest =
    | Shares(amount: real)
    | Value(value: real)
    | Percent(percent: real)
    | Target(target: real)
    | TargetValue(targetValue: real)
    | TargetPercent(targetPercent: real)

  /**
   * `_calculate_order_value_amount`: an untradable asset or a missing last
   * price is an error, a price that is zero within the tolerance orders
   * nothing, and otherwise the value buys `value / price` shares.
   */
  function ValueAmount(d: CurrentData, asset: Asset, value: real): (r: Result<real, AlgoError>)
    ensures !d.canTrade(asset) ==> r == Err(CannotOrderDelistedAsset(asset, NotTradable))
    ensures d.canTrade(asset) && d.price(asset).None? ==> r == Err(CannotOrderDelistedAsset(asset, NoLastPrice))
    ensures r.Ok? <==> d.canTrade(asset) && d.price(asset).Some?
  {
    if !d.canTrade(asset) then Err(CannotOrderDelistedAsset(asset, NotTradable))
    else
      var price := d.price(asset);
      if price.None? then Err(CannotOrderDelistedAsset(asset, NoLastPrice))
      else if Abs(price.value) <= d.zeroTolerance then Ok(0.0)
      else Ok(value / price.value)
  }

  /** The value amount bought at the last price is the value asked for, unless the price counts as zero. */
  lemma ValueAmountBuysValue(d: CurrentData, asset: Asset, value: real)
    requires ValueAmount(d, asset, value).Ok?
    ensures var price := d.price(asset).value;
      Abs(price) <= d.zeroTolerance ==> ValueAmount(d, asset, value).value == 0.0
    ensures var price := d.price(asset).value;
      Abs(price) > d.zeroTolerance ==> ValueAmount(d, asset, value).value * price == value
  {
  }

  /** `_calculate_order_percent_amount`: the shares bought with `percent` of the portfolio value. */
  function PercentAmount(c: OrderContext, asset: Asset, percent: real): (r: Result<real, AlgoError>)
    ensures r == ValueAmount(c.data, asset, c.portfolio.portfolioValue * percent)
  {
    ValueAmount(c.data, asset, c.portfolio.portfolioValue * percent)
  }

  /** The shares of `asset` the portfolio holds, zero when it holds none. */
  function Held(p: Portfolio, asset: Asset): int
  {
    if asset in p.positions then p.positions[asset] else 0
  }

  /** `_calculate_order_target_amount`: the change that takes the position to `target`. */
  function TargetAmount(p: Portfolio, asset: Asset, target: real): (r: real)
    ensures asset !in p.positions ==> r == target
  {
    if asset in p.positions then target - p.positions[asset] as real else target
  }

  /** Ordering the target amount leaves exactly `target` shares held. */
  lemma TargetAmountReachesTarget(p: Portfolio, asset: Asset, target: real)
    ensures Held(p, asset) as real + TargetAmount(p, asset, target) == target
  {
  }

  /** The share count a request asks `order` for, before rounding. */
  function RequestedAmount(c: OrderContext, asset: Asset, req: OrderRequest): Result<real, AlgoError>
  {
    match req
    case Shares(n) => Ok(n)
    case Value(v) => ValueAmount(c.data, asset, v)
    case Percent(p) => PercentAmount(c, asset, p)
    case Target(t) => Ok(TargetAmount(c.portfolio, asset, t))
    case TargetValue(v) =>
      var amount :- ValueAmount(c.data, asset, v);
      Ok(TargetAmount(c.portfolio, asset, amount))
    case TargetPercent(p) =>
      var amount :- PercentAmount(c, asset, p);
      Ok(TargetAmount(c.portfolio, asset, amount))
  }

  /**
   * The `order*` API functions: `order_value` is refused while
   * `before_trading_start` runs, like `order`; the others check the asset,
   * size the order and then go through `order`, which checks the asset and
   * the flag again.
   */
  function PlanRequest(c: OrderContext, asset: Orderable, req: OrderRequest, limit: Option<real>,
                       stop: Option<real>, style: Option<ExecutionStyle>): (r: Result<Option<Submission>, AlgoError>)
    ensures (req.Shares? || req.Value?) && c.inBeforeTradingStart ==> r == Err(OrderInBeforeTradingStart)
    ensures r.Ok? && r.value.Some? ==>
      asset.AnAsset? && r.value.value.asset == asset.asset && r.value.value.amount != 0 && r.value.value.amount <= MaxShares
  {
    if req.Shares? then PlanOrder(c, asset, req.amount, limit, stop, style)
    else if req.Value? && c.inBeforeTradingStart then Err(OrderInBeforeTradingStart)
    else
      var can :- CanOrderAsset(asset, c.datetime);
      if !can then Ok(None)
      else
        var amount :- RequestedAmount(c, asset.asset, req);
        PlanOrder(c, asset, amount, limit, stop, style)
  }

  /** Whatever the request, a plan that submits obeys every rule of `order`. */
  lemma {:induction false} SubmissionObeysRules(c: OrderContext, asset: Orderable, req: OrderRequest, limit: Option<real>,
                                                stop: Option<real>, style: Option<ExecutionStyle>)
    requires PlanRequest(c, asset, req, limit, stop, style).Ok?
    requires PlanRequest(c, asset, req, limit, stop, style).value.Some?
    ensures var s := PlanRequest(c, asset, req, limit, stop, style).value.value;
      c.initialized && !c.inBeforeTradingStart && asset.AnAsset? && s.asset == asset.asset
      && s.amount != 0 && s.amount <= MaxShares
      && ValidateOrderParams(c, asset.asset, s.amount, limit, stop, style).Ok?
      && (style.Some? ==> s.style == style.value)
  {
    var amount := if req.Shares? then req.amount else RequestedAmount(c, asset.asset, req).value;
    assert PlanRequest(c, asset, req, limit, stop, style) == PlanOrder(c, asset, amount, limit, stop, style);
    PlanOrderSubmits(c, asset, amount, limit, stop, style);
  }

  /** The facts behind a submitting plan of `order`. */
  lemma PlanOrderSubmits(c: OrderContext, asset: Orderable, amount: real, limit: Option<real>,
                         stop: Option<real>, style: Option<ExecutionStyle>)
    requires PlanOrder(c, asset, amount, limit, stop, style).Ok?
    requires PlanOrder(c, asset, amount, limit, stop, style).value.Some?
    ensures var s := PlanOrder(c, asset, amount, limit, stop, style).value.value;
      c.initialized && !c.inBeforeTradingStart && asset.AnAsset? && s.asset == asset.asset
      && s.amount == RoundOrder(amount) && s.amount != 0 && s.amount <= MaxShares
      && ValidateOrderParams(c, asset.asset, s.amount, limit, stop, style).Ok?
      && (style.Some? ==> s.style == style.value)
  {
  }

  /**
   * While `before_trading_start` runs, no request submits anything, and
   * `order` and `order_value` fail with `OrderInBeforeTradingStart` before
   * looking at their arguments.
   */
  lemma {:induction false} NoOrdersBeforeTradingStart(c: OrderContext, asset: Orderable, req: OrderRequest,
                                                      limit: Option<real>, stop: Option<real>, style: Option<ExecutionStyle>)
    requires c.inBeforeTradingStart
    ensures req.Shares? || req.Value? ==> PlanRequest(c, asset, req, limit, stop, style) == Err(OrderInBeforeTradingStart)
    ensures !(PlanRequest(c, asset, req, limit, stop, style).Ok? && PlanRequest(c, asset, req, limit, stop, style).value.Some?)
  {
    var p := PlanRequest(c, asset, req, limit, stop, style);
    if p.Ok? && p.value.Some? {
      SubmissionObeysRules(c, asset, req, limit, stop, style);
    }
  }

  /** Before initialisation, no request submits anything; an order that gets that far fails with `OrderDuringInitialize`. */
  lemma {:induction false} NoOrdersDuringInitialize(c: OrderContext, asset: Orderable, amount: real, limit: Option<real>,
                                                    stop: Option<real>, style: Option<ExecutionStyle>, req: OrderRequest)
    requires !c.initialized
    ensures !c.inBeforeTradingStart && CanOrderAsset(asset, c.datetime) == Ok(true) ==>
      PlanOrder(c, asset, amount, limit, stop, style) == Err(OrderDuringInitialize(InitializeMessage))
    ensures !(PlanRequest(c, asset, req, limit, stop, style).Ok? && PlanRequest(c, asset, req, limit, stop, style).value.Some?)
  {
    var p := PlanRequest(c, asset, req, limit, stop, style);
    if p.Ok? && p.value.Some? {
      SubmissionObeysRules(c, asset, req, limit, stop, style);
    }
  }

  /**
   * With no position and a last price of 100 on a portfolio worth 1000,
   * every sizing asks for the expected number of shares: one for ten
   * percent, two for twenty, one share as a target.
   */
  lemma SizingExamples(c: OrderContext, a: Asset)
    requires c.initialized && !c.inBeforeTradingStart && c.controls == [] && a.autoCloseDate.None?
    requires c.portfolio == Portfolio(1000.0, map[]) && c.data.canTrade(a) && c.data.price(a) == Some(100.0)
    requires c.data.zeroTolerance < 1.0
    ensures PlanRequest(c, AnAsset(a), Percent(0.1), None, None, None) == Ok(Some(Submission(a, 1, MarketOrder)))
    ensures PlanRequest(c, AnAsset(a), Percent(0.2), None, None, None) == Ok(Some(Submission(a, 2, MarketOrder)))
    ensures PlanRequest(c, AnAsset(a), TargetPercent(0.1), None, None, None) == Ok(Some(Submission(a, 1, MarketOrder)))
    ensures PlanRequest(c, AnAsset(a), Target(1.0), None, None, None) == Ok(Some(Submission(a, 1, MarketOrder)))
    ensures PlanRequest(c, AnAsset(a), Shares(1.0), None, None, None) == Ok(Some(Submission(a, 1, MarketOrder)))
  {
    RoundOrderNear(1.0, 1);
    RoundOrderNear(2.0, 2);
    assert 1000.0 * 0.1 / 100.0 == 1.0;
    assert 1000.0 * 0.2 / 100.0 == 2.0;
  }
}
