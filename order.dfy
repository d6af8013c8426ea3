/**
 * The order record the algorithm and the backends exchange: its status
 * codes, its constructor defaults, the status derived from the fill and the
 * stored status, and its dictionary form.
 */
module Orders {
  import opened Wrappers
  import opened Assets

  /** `ORDER_STATUS` */
  datatype OrderStatus = Open | Filled | Cancelled | Rejected | Held

  function StatusCode(s: OrderStatus): (c: nat)
    ensures c <= 4
  {
    match s
    case Open => 0
    case Filled => 1
    case Cancelled => 2
    case Rejected => 3
    case Held => 4
  }

  /** The codes are the integer values of the enumeration, one per member. */
  lemma StatusCodesDistinct(a: OrderStatus, b: OrderStatus)
    ensures StatusCode(a) == StatusCode(b) <==> a == b
  {
  }

  /**
   * An order. `rawStatus` is the stored `_status`; `direction` is the sign
   * of the amount as `1` or `-1`; the `type` slot is always `None` and is
   * not kept.
   */
  datatype Order = Order(
    id: string,
    dt: int,
    reason: Option<string>,
    created: int,
    asset: Asset,
    amount: int,
    filled: int,
    commission: real,
    rawStatus: OrderStatus,
    stop: Option<real>,
    limit: Option<real>,
    stopReached: bool,
    limitReached: bool,
    direction: int,
    brokerOrderId: Option<string>)

  /**
   * `Order(dt, asset, amount, stop, limit, filled, commission, id)`. A
   * missing id is replaced by `freshId`, which stands for the random hex
   * string the source draws.
   */
  function NewOrder(dt: int, asset: Asset, amount: int, stop: Option<real>, limit: Option<real>,
                    filled: int, commission: real, id: Option<string>, freshId: string): (o: Order)
    ensures o.id == (if id.Some? then id.value else freshId)
    ensures o.dt == dt && o.created == dt && o.reason.None?
    ensures o.asset == asset && o.amount == amount && o.filled == filled && o.commission == commission
    ensures o.rawStatus == Open && o.stop == stop && o.limit == limit
    ensures !o.stopReached && !o.limitReached && o.brokerOrderId.None?
    ensures o.direction == (if amount < 0 then -1 else 1)
    ensures o.direction * o.amount >= 0
  {
    Order(if id.Some? then id.value else freshId, dt, None, dt, asset, amount, filled, commission,
          Open, stop, limit, false, false, if amount < 0 then -1 else 1, None)
  }

  /** NewOrder with the constructor's defaults: no stop or limit, nothing filled, no commission. */
  function DefaultOrder(dt: int, asset: Asset, amount: int, freshId: string): Order
  {
    NewOrder(dt, asset, amount, None, None, 0, 0.0, None, freshId)
  }

  /** `open_amount` */
  function OpenAmount(o: Order): (r: int)
    ensures o.filled + r == o.amount
  {
    o.amount - o.filled
  }

  /**
   * `status`: filled once nothing is left open, whatever is stored; a held
   * order that has started to fill counts as open; otherwise the stored status.
   */
  function Status(o: Order): (s: OrderStatus)
    ensures OpenAmount(o) == 0 ==> s == Filled
    ensures s == o.rawStatus || (s == Filled && OpenAmount(o) == 0) || (s == Open && o.rawStatus == Held)
  {
    if OpenAmount(o) == 0 then Filled
    else if o.rawStatus == Held && o.filled != 0 then Open
    else o.rawStatus
  }

  /** `open`: the status is open or held. */
  predicate IsOpen(o: Order): (r: bool)
    ensures r ==> OpenAmount(o) != 0 && o.rawStatus in {Open, Held}
  {
    Status(o) in {Open, Held}
  }

  /** The derived status, case by case, in both directions. */
  lemma StatusCases(o: Order)
    ensures Status(o) == Filled <==> o.amount == o.filled || o.rawStatus == Filled
    ensures o.amount != o.filled && o.rawStatus == Held ==> (Status(o) == Open <==> o.filled != 0)
    ensures o.amount != o.filled && o.rawStatus != Held ==> Status(o) == o.rawStatus
    ensures Status(o) == Held ==> o.rawStatus == Held && o.filled == 0
  {
  }

  /** An order is open exactly when something is left to fill and it was neither filled, cancelled nor rejected. */
  lemma OpenIff(o: Order)
    ensures IsOpen(o) <==> OpenAmount(o) != 0 && o.rawStatus in {Open, Held}
  {
  }

  /** A freshly built order is open exactly when its amount differs from its fill; a zero-amount order is filled at once. */
  lemma NewOrderStatus(dt: int, asset: Asset, amount: int, freshId: string)
    ensures var o := DefaultOrder(dt, asset, amount, freshId);
      (Status(o) == Filled <==> amount == 0) && (IsOpen(o) <==> amount != 0)
  {
  }

  /** The unit test: an order for three shares is open until three are filled. */
  lemma OrderFillsUp(dt: int, asset: Asset, freshId: string)
    ensures var o := DefaultOrder(dt, asset, 3, freshId);
      o.asset == asset && IsOpen(o)
      && OpenAmount(o.(filled := 3)) == 0 && !IsOpen(o.(filled := 3))
  {
  }

  /** A value of the dictionary form. */
  datatype OrderValue =
    | IdField(text: string)
    | MaybeText(optionalText: Option<string>)
    | TimeField(time: int)
    | CountField(count: int)
    | MoneyField(money: real)
    | PriceField(price: Option<real>)
    | FlagField(flag: bool)
    | AssetField(assetValue: Asset)
    | StatusField(status: OrderStatus)

  /**
   * The keys of the dictionary form, one per slot name and the two added
   * ones; `KeyName` gives the Python name.
   */
  datatype OrderKey =
    | IdKey | DtKey | ReasonKey | CreatedKey | AmountKey | FilledKey | CommissionKey
    | StopKey | LimitKey | StopReachedKey | LimitReachedKey | BrokerOrderIdKey | SidKey | StatusKey

  function KeyName(k: OrderKey): string
  {
    match k
    case IdKey => "id"
    case DtKey => "dt"
    case ReasonKey => "reason"
    case CreatedKey => "created"
    case AmountKey => "amount"
    case FilledKey => "filled"
    case CommissionKey => "commission"
    case StopKey => "stop"
    case LimitKey => "limit"
    case StopReachedKey => "stop_reached"
    case LimitReachedKey => "limit_reached"
    case BrokerOrderIdKey => "broker_order_id"
    case SidKey => "sid"
    case StatusKey => "status"
  }

  /** `getattr(o, name)` for the name of key `k`, with `sid` and `status` the two properties. */
  function SlotValue(o: Order, k: OrderKey): OrderValue
  {
    match k
    case IdKey => IdField(o.id)
    case DtKey => TimeField(o.dt)
    case ReasonKey => MaybeText(o.reason)
    case CreatedKey => TimeField(o.created)
    case AmountKey => CountField(o.amount)
    case FilledKey => CountField(o.filled)
    case CommissionKey => MoneyField(o.commission)
    case StopKey => PriceField(o.stop)
    case LimitKey => PriceField(o.limit)
    case StopReachedKey => FlagField(o.stopReached)
    case LimitReachedKey => FlagField(o.limitReached)
    case BrokerOrderIdKey => MaybeText(o.brokerOrderId)
    case SidKey => AssetField(o.asset)
    case StatusKey => StatusField(Status(o))
  }

  /**
   * `to_dict`: every slot but the ignored `type`, `direction`, `_status` and
   * `asset`, the broker order id only when there is one, and `sid` (the
   * asset) and `status` (the derived one).
   */
  function ToDict(o: Order): (d: map<OrderKey, OrderValue>)
    ensures forall k :: k in d <==> k != BrokerOrderIdKey || o.brokerOrderId.Some?
    ensures forall k :: k in d ==> d[k] == SlotValue(o, k)
  {
    map k: OrderKey | k != BrokerOrderIdKey || o.brokerOrderId.Some? :: SlotValue(o, k)
  }

  /** What the consumers read: the asset under `sid`, the derived status under `status`. */
  lemma ToDictSidAndStatus(o: Order)
    ensures SidKey in ToDict(o) && ToDict(o)[SidKey] == AssetField(o.asset)
    ensures StatusKey in ToDict(o) && ToDict(o)[StatusKey] == StatusField(Status(o))
    ensures ToDict(o)[AmountKey] == CountField(o.amount) && ToDict(o)[FilledKey] == CountField(o.filled)
  {
  }

  /** Equal dictionaries hold equal values under every key. */
  lemma SlotsAgree(a: Order, b: Order)
    requires ToDict(a) == ToDict(b)
    ensures a.brokerOrderId.Some? <==> b.brokerOrderId.Some?
    ensures forall k :: k != BrokerOrderIdKey || a.brokerOrderId.Some? ==> SlotValue(a, k) == SlotValue(b, k)
  {
    assert (BrokerOrderIdKey in ToDict(a)) == (BrokerOrderIdKey in ToDict(b));
    forall k | k != BrokerOrderIdKey || a.brokerOrderId.Some?
      ensures SlotValue(a, k) == SlotValue(b, k)
    {
      assert k in ToDict(a);
    }
  }

  /**
   * The dictionary form loses only the direction and the stored status:
   * orders with the same dictionary agree on every other slot.
   */
  lemma ToDictDetermines(a: Order, b: Order)
    requires ToDict(a) == ToDict(b)
    ensures a.(direction := b.direction, rawStatus := b.rawStatus) == b
  {
    SlotsAgree(a, b);
    assert SlotValue(a, IdKey) == SlotValue(b, IdKey);
    assert SlotValue(a, DtKey) == SlotValue(b, DtKey);
    assert SlotValue(a, ReasonKey) == SlotValue(b, ReasonKey);
    assert SlotValue(a, CreatedKey) == SlotValue(b, CreatedKey);
    assert SlotValue(a, AmountKey) == SlotValue(b, AmountKey);
    assert SlotValue(a, FilledKey) == SlotValue(b, FilledKey);
    assert SlotValue(a, CommissionKey) == SlotValue(b, CommissionKey);
    assert SlotValue(a, StopKey) == SlotValue(b, StopKey);
    assert SlotValue(a, LimitKey) == SlotValue(b, LimitKey);
    assert SlotValue(a, StopReachedKey) == SlotValue(b, StopReachedKey);
    assert SlotValue(a, LimitReachedKey) == SlotValue(b, LimitReachedKey);
    assert SlotValue(a, SidKey) == SlotValue(b, SidKey);
    if a.brokerOrderId.Some? {
      assert SlotValue(a, BrokerOrderIdKey) == SlotValue(b, BrokerOrderIdKey);
    }
  }
}
