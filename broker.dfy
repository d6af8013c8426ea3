/**
 * What the Alpaca backends share: the HTTP-error filter, the conversion of
 * a broker order into the algorithm's order, the split of an order that
 * would flip a position, the submit request, and the two tables the
 * backends keep (open orders by id, and orders waiting for a fill before
 * they are sent).
 */
module Brokers {
  import opened Wrappers
  import opened Assets
  import opened Orders
  import opened OrderRules

  /** How a broker call ended: with a value, an HTTP error carrying its status, or another exception. */
  datatype Outcome<T> = Returned(value: T) | HttpError(status: int) | OtherError

  /**
   * `skip_http_error(statuses)` around a call: an HTTP error whose status
   * is listed is swallowed (the wrapper returns `None`); any other HTTP
   * error and any other exception propagate.
   */
  function SkipHttpError<T>(statuses: seq<int>, call: Outcome<T>): (r: Outcome<Option<T>>)
    ensures call.Returned? ==> r == Returned(Some(call.value))
    ensures r == Returned(None) <==> call.HttpError? && call.status in statuses
    ensures call.HttpError? && call.status !in statuses ==> r == HttpError(call.status)
    ensures call.OtherError? ==> r == OtherError
  {
    match call
    case Returned(v) => Returned(Some(v))
    case HttpError(s) => if s in statuses then Returned(None) else HttpError(s)
    case OtherError => OtherError
  }

  /** The unit test: a 404 is swallowed by a filter for 404, a 503 is not. */
  lemma SkipHttpErrorTest()
    ensures SkipHttpError<int>([404], HttpError(404)) == Returned(None)
    ensures SkipHttpError<int>([404], HttpError(503)) == HttpError(503)
  {
  }

  datatype OrderSide = Buy | Sell

  /** `abs` on a share count. */
  function IntAbs(x: int): (r: nat)
    ensures r == x || r == -x
  {
    if x < 0 then -x else x
  }

  /**
   * A broker order as far as the backends read it. Prices are `None` when
   * the broker leaves them empty; a time is `None` when the event has not
   * happened.
   */
  datatype RawOrder = RawOrder(
    clientOrderId: string,
    symbol: string,
    qty: nat,
    side: OrderSide,
    stopPrice: Option<real>,
    limitPrice: Option<real>,
    submittedAt: int,
    canceledAt: Option<int>,
    failedAt: Option<int>,
    filledAt: Option<int>,
    filledQty: nat)

  /** The status a broker order maps to: filled over rejected over cancelled over open. */
  function BrokerStatus(o: RawOrder): (s: OrderStatus)
    ensures s == Filled <==> o.filledAt.Some?
    ensures s == Rejected <==> o.filledAt.None? && o.failedAt.Some?
    ensures s == Cancelled <==> o.filledAt.None? && o.failedAt.None? && o.canceledAt.Some?
    ensures s == Open <==> o.filledAt.None? && o.failedAt.None? && o.canceledAt.None?
  {
    var s := Open;
    var s := if o.canceledAt.Some? then Cancelled else s;
    var s := if o.failedAt.Some? then Rejected else s;
    if o.filledAt.Some? then Filled else s
  }

  /**
   * `_order2zp`: the broker order as the algorithm's order, signed by its
   * side, with the status overwritten in turn by each event that has a
   * time, and the fill recorded only for a filled order. `lookup` is
   * `symbol_lookup`.
   */
  function Order2Zp(o: RawOrder, lookup: string -> Asset): (z: Order)
    ensures z.id == o.clientOrderId && z.asset == lookup(o.symbol) && z.dt == o.submittedAt
    ensures z.amount == (if o.side == Buy then o.qty as int else -(o.qty as int))
    ensures z.stop == o.stopPrice && z.limit == o.limitPrice && z.commission == 0.0
    ensures z.rawStatus == BrokerStatus(o)
    ensures z.filled == (if o.filledAt.Some? then o.filledQty else 0)
  {
    var amount := if o.side == Buy then o.qty as int else -(o.qty as int);
    var z := NewOrder(o.submittedAt, lookup(o.symbol), amount, o.stopPrice, o.limitPrice, 0, 0.0, Some(o.clientOrderId), "");
    z.(rawStatus := BrokerStatus(o), filled := if o.filledAt.Some? then o.filledQty else z.filled)
  }

  /** The unit test's three orders: open, failed and filled. */
  lemma Order2ZpStatusTest(o: RawOrder, lookup: string -> Asset, t: int)
    requires o.canceledAt.None? && o.failedAt.None? && o.filledAt.None?
    ensures Order2Zp(o, lookup).rawStatus == Open
    ensures Order2Zp(o.(failedAt := Some(t)), lookup).rawStatus == Rejected
    ensures Order2Zp(o.(filledAt := Some(t)), lookup).rawStatus == Filled
  {
  }

  /**
   * The split of an order: in compatible mode, an order larger than the
   * position and against it is cut to close the position, and the rest is
   * kept to send once that fills. Returns the amount to send now and the
   * remainder, if any. A split sends exactly the closing amount and keeps
   * a non-zero rest in the order's own direction; together they make the
   * order. Without a split the amount goes unchanged.
   */
  function SplitPlan(amount: int, position: int, compatible: bool): (p: (int, Option<int>))
    ensures p.1.Some? <==> compatible && IntAbs(amount) > IntAbs(position) && amount * position < 0
    ensures p.1.None? ==> p.0 == amount
    ensures p.1.Some? ==> position + p.0 == 0 && p.0 + p.1.value == amount
    ensures p.1.Some? ==> p.1.value != 0 && (p.1.value > 0 <==> amount > 0)
  {
    if compatible && IntAbs(amount) > IntAbs(position) && amount * position < 0 then (-position, Some(amount + position))
    else (amount, None)
  }

  datatype OrderType = MarketType | LimitType | StopType | StopLimitType

  /** The order type named after the style's class. */
  function TypeOf(style: ExecutionStyle): OrderType
  {
    match style
    case MarketOrder => MarketType
    case LimitOrder(_) => LimitType
    case StopOrder(_) => StopType
    case StopLimitOrder(_, _) => StopLimitType
  }

  /** `price or None`: a zero price is sent as none. */
  function NonZero(p: Option<real>): (r: Option<real>)
    ensures r.Some? <==> p.Some? && p.value != 0.0
    ensures r.Some? ==> r == p
  {
    if p.Some? && p.value != 0.0 then p else None
  }

  /** The arguments of `submit_order`. */
  datatype SubmitRequest = SubmitRequest(
    symbol: Option<string>,
    qty: nat,
    side: OrderSide,
    orderType: OrderType,
    timeInForce: string,
    limitPrice: Option<real>,
    stopPrice: Option<real>,
    clientOrderId: string)

  /**
   * The request for an order: the size unsigned, buying exactly when the
   * amount is positive, a day order of the style's type and prices, under
   * the order's new id.
   */
  function Request(asset: Asset, amount: int, style: ExecutionStyle, id: string): (q: SubmitRequest)
    ensures q.qty == IntAbs(amount)
    ensures q.side == Buy <==> amount > 0
    ensures q.orderType == TypeOf(style) && q.timeInForce == "day"
    ensures q.limitPrice == NonZero(LimitOf(style)) && q.stopPrice == NonZero(StopOf(style))
    ensures q.symbol == asset.symbol && q.clientOrderId == id
  {
    var qty := if amount > 0 then amount else -amount;
    SubmitRequest(asset.symbol, qty, if amount > 0 then Buy else Sell, TypeOf(style), "day",
                  NonZero(LimitOf(style)), NonZero(StopOf(style)), id)
  }

  /** The broker's answer to a request: its order, or `None` for an `APIError`. */
  type Submit = SubmitRequest -> Option<RawOrder>

  /** A broker order that echoes the request it answers. */
  predicate Echoes(q: SubmitRequest, o: RawOrder)
  {
    o.clientOrderId == q.clientOrderId && o.qty == q.qty && o.side == q.side
  }

  /** The order the algorithm gets back for an echoing answer carries the amount sent and the id asked for. */
  lemma RequestRoundTrip(asset: Asset, amount: int, style: ExecutionStyle, id: string, o: RawOrder, lookup: string -> Asset)
    requires Echoes(Request(asset, amount, style, id), o)
    ensures Order2Zp(o, lookup).amount == amount && Order2Zp(o, lookup).id == id
  {
  }

  /** An order waiting for the fill of the closing part: its asset, the rest, and the style. */
  datatype Pending = Pending(asset: Asset, amount: int, style: ExecutionStyle)

  /** The two tables a backend keeps: `_open_orders` and `_orders_pending_submission`. */
  datatype Book = Book(open: map<string, Order>, pending: map<string, Pending>)

  /** Every waiting order has something left to send. */
  predicate PendingNonZero(b: Book)
  {
    forall k :: k in b.pending ==> b.pending[k].amount != 0
  }

  /**
   * `order`, given the held amount: a rest is recorded under the new id
   * exactly when the order is split, before it is sent, so a failed submit
   * keeps it; the other waiting orders stay. The open orders gain exactly
   * the broker's order under the new id when the broker accepts it, and
   * nothing on failure. Every waiting order still has something to send.
   */
  function PlaceOrder(b: Book, asset: Asset, amount: int, style: ExecutionStyle, compatible: bool, held: int,
                      freshId: string, submit: Submit, lookup: string -> Asset): (r: (Book, Option<Order>))
    ensures var answer := submit(Request(asset, SplitPlan(amount, held, compatible).0, style, freshId));
      && (answer.None? ==> r.1.None? && r.0.open == b.open)
      && (answer.Some? ==> r.1 == Some(Order2Zp(answer.value, lookup)) && r.0.open == b.open[freshId := r.1.value])
    ensures var rest := SplitPlan(amount, held, compatible).1;
      && (rest.Some? ==> freshId in r.0.pending && r.0.pending[freshId] == Pending(asset, rest.value, style))
      && (rest.None? ==> r.0.pending == b.pending)
    ensures forall k :: k in b.pending && k != freshId ==> k in r.0.pending && r.0.pending[k] == b.pending[k]
    ensures forall k :: k in r.0.pending && k != freshId ==> k in b.pending
    ensures PendingNonZero(b) ==> PendingNonZero(r.0)
  {
    var (now, rest) := SplitPlan(amount, held, compatible);
    var pending := if rest.Some? then b.pending[freshId := Pending(asset, rest.value, style)] else b.pending;
    var answer := submit(Request(asset, now, style, freshId));
    if answer.None? then (Book(b.open, pending), None)
    else
      var z := Order2Zp(answer.value, lookup);
      (Book(b.open[freshId := z], pending), Some(z))
  }

  /** The events that end an order at the broker. */
  predicate Terminal(event: string)
  {
    event == "fill" || event == "canceled" || event == "rejected"
  }

  /** A waiting order is dropped when the closing order fills, is cancelled or is rejected. */
  function PendingAfter(event: string, pending: map<string, Pending>, id: string): (r: map<string, Pending>)
    ensures id in r <==> id in pending && !Terminal(event)
    ensures forall k :: k != id ==> (k in r <==> k in pending) && (k in r ==> r[k] == pending[k])
  {
    if id in pending && Terminal(event) then pending - {id} else pending
  }

  /** A terminal event drops the order from the open orders; any other stores its latest snapshot. */
  function OpenAfter(event: string, open: map<string, Order>, id: string, snapshot: Order): (r: map<string, Order>)
    ensures Terminal(event) ==> id !in r
    ensures !Terminal(event) ==> id in r && r[id] == snapshot
    ensures forall k :: k != id ==> (k in r <==> k in open) && (k in r ==> r[k] == open[k])
  {
    if Terminal(event) then open - {id} else open[id := snapshot]
  }
}
