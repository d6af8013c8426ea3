/**
 * The Alpaca backend's own state: the open orders it tracks by client
 * order id and the rests of split orders waiting for the closing part to
 * fill. Orders and trade updates change both tables; `all_orders` pages
 * through the broker's order list backwards in time.
 *
 * The broker is given as functions: `submit` answers an order request
 * (`None` for an `APIError`), `held` is the position held in an asset,
 * `listOrders(status, until)` is one page of orders submitted before
 * `until`. A new order id (a random uuid) is a parameter.
 */
module AlpacaBackends {
  import opened Wrappers
  import opened TimeModel
  import opened Assets
  import opened Orders
  import opened OrderRules
  import opened Brokers

  /**
   * A trade update as one step: a fill of an order with a waiting rest
   * sends the rest (in compatible mode, under `freshId`); a terminal
   * event drops the waiting rest; then a terminal event drops the order
   * from the open orders, and any other event stores its new snapshot.
   */
  function TradeUpdate(b: Book, event: string, data: RawOrder, freshId: string, held: Asset -> int,
                       submit: Submit, lookup: string -> Asset): (b': Book)
    ensures var id := data.clientOrderId;
      id in b'.pending <==> id in b.pending && !Terminal(event)
    ensures Terminal(event) ==> data.clientOrderId !in b'.open
    ensures !Terminal(event) ==> data.clientOrderId in b'.open && b'.open[data.clientOrderId] == Order2Zp(data, lookup)
    ensures forall k :: k != data.clientOrderId && k != freshId ==>
      (k in b'.pending <==> k in b.pending) && (k in b'.pending ==> b'.pending[k] == b.pending[k])
    ensures forall k :: k != data.clientOrderId && k != freshId ==>
      (k in b'.open <==> k in b.open) && (k in b'.open ==> b'.open[k] == b.open[k])
    ensures PendingNonZero(b) ==> PendingNonZero(b')
  {
    var id := data.clientOrderId;
    var sent := if id in b.pending && event == "fill" then
        var w := b.pending[id];
        PlaceOrder(b, w.asset, w.amount, w.style, true, held(w.asset), freshId, submit, lookup).0
      else b;
    var pending := if id in b.pending && Terminal(event) then sent.pending - {id} else sent.pending;
    Book(OpenAfter(event, sent.open, id, Order2Zp(data, lookup)), pending)
  }

  /**
   * The fill of an order with a waiting rest sends the rest: when the
   * broker accepts it, the open orders hold its answer under the new id.
   */
  lemma FillSendsRest(b: Book, data: RawOrder, freshId: string, held: Asset -> int, submit: Submit, lookup: string -> Asset)
    requires data.clientOrderId in b.pending && freshId != data.clientOrderId
    ensures var w := b.pending[data.clientOrderId];
      var answer := submit(Request(w.asset, SplitPlan(w.amount, held(w.asset), true).0, w.style, freshId));
      var b' := TradeUpdate(b, "fill", data, freshId, held, submit, lookup);
      && (answer.Some? ==> freshId in b'.open && b'.open[freshId] == Order2Zp(answer.value, lookup))
      && (answer.None? ==> (freshId in b'.open <==> freshId in b.open))
  {
  }

  /** The state `all_orders` returns without asking the broker: only open orders, unbounded, outside initialisation. */
  predicate ShortCircuit(before: Option<int>, status: string, daysBack: Option<int>, initialize: bool): (r: bool)
    ensures r ==> status == "open" && !initialize
    ensures status == "open" && !initialize && before.None? && daysBack.None? ==> r
  {
    !initialize && status == "open" && before.None? && daysBack.None?
  }

  /** The open orders a list of broker orders makes, each id mapped to its last order. */
  function MapOf(xs: seq<RawOrder>, lookup: string -> Asset): (m: map<string, Order>)
    ensures forall i :: 0 <= i < |xs| ==> xs[i].clientOrderId in m
    ensures |xs| > 0 ==> m[xs[|xs| - 1].clientOrderId] == Order2Zp(xs[|xs| - 1], lookup)
  {
    if |xs| == 0 then map[]
    else
      var last := xs[|xs| - 1];
      MapOf(xs[..|xs| - 1], lookup)[last.clientOrderId := Order2Zp(last, lookup)]
  }

  /** The map of a list holds exactly the ids of its orders. */
  lemma {:induction false} MapOfKeys(xs: seq<RawOrder>, lookup: string -> Asset, k: string)
    ensures k in MapOf(xs, lookup) <==> exists i :: 0 <= i < |xs| && xs[i].clientOrderId == k
  {
    if |xs| > 0 {
      var init := xs[..|xs| - 1];
      MapOfKeys(init, lookup, k);
      if k in MapOf(init, lookup) {
        var i :| 0 <= i < |init| && init[i].clientOrderId == k;
        assert xs[i] == init[i];
      }
      if exists i :: 0 <= i < |xs| && xs[i].clientOrderId == k {
        var i :| 0 <= i < |xs| && xs[i].clientOrderId == k;
        if i < |init| {
          assert init[i] == xs[i];
        }
      }
    }
  }

  /** An id maps to the conversion of the last order with that id. */
  lemma {:induction false} MapOfLast(xs: seq<RawOrder>, lookup: string -> Asset, j: nat)
    requires j < |xs|
    requires forall i :: j < i < |xs| ==> xs[i].clientOrderId != xs[j].clientOrderId
    ensures xs[j].clientOrderId in MapOf(xs, lookup)
    ensures MapOf(xs, lookup)[xs[j].clientOrderId] == Order2Zp(xs[j], lookup)
  {
    if j < |xs| - 1 {
      var init := xs[..|xs| - 1];
      assert init[j] == xs[j];
      forall i | j < i < |init| ensures init[i].clientOrderId != init[j].clientOrderId {
        assert init[i] == xs[i];
      }
      MapOfLast(init, lookup, j);
    }
  }

  /** The map of one more order of a list. */
  lemma MapOfSnoc(xs: seq<RawOrder>, i: nat, lookup: string -> Asset)
    requires i < |xs|
    ensures MapOf(xs[..i + 1], lookup) == MapOf(xs[..i], lookup)[xs[i].clientOrderId := Order2Zp(xs[i], lookup)]
  {
    assert xs[..i + 1][..i] == xs[..i];
  }

  /** Updating a union updates its right-hand side. */
  lemma UpdateOverUnion<K, V>(a: map<K, V>, b: map<K, V>, k: K, v: V)
    ensures (a + b)[k := v] == a + b[k := v]
  {
  }

  /** Merging a later batch (`dict.update`) is the map of the joined list. */
  lemma {:induction false} MapOfAppend(xs: seq<RawOrder>, ys: seq<RawOrder>, lookup: string -> Asset)
    ensures MapOf(xs + ys, lookup) == MapOf(xs, lookup) + MapOf(ys, lookup)
  {
    if |ys| > 0 {
      var init := ys[..|ys| - 1];
      var last := ys[|ys| - 1];
      assert (xs + ys)[..|xs + ys| - 1] == xs + init;
      assert (xs + ys)[|xs + ys| - 1] == last;
      MapOfAppend(xs, init, lookup);
      var a, b := MapOf(xs, lookup), MapOf(init, lookup);
      var k, v := last.clientOrderId, Order2Zp(last, lookup);
      calc {
        MapOf(xs + ys, lookup);
        MapOf(xs + init, lookup)[k := v];
        (a + b)[k := v];
        { UpdateOverUnion(a, b, k, v); }
        a + b[k := v];
        { assert ys[..|ys| - 1] == init; }
        a + MapOf(ys, lookup);
      }
    } else {
      assert xs + ys == xs;
    }
  }

  /** The broker lists, for any `until`, only orders submitted at a time from 0 up to but excluding `until`. */
  ghost predicate ListsBefore(listOrders: (string, int) -> seq<RawOrder>)
  {
    forall status, until, i :: 0 <= i < |listOrders(status, until)| ==>
      0 <= listOrders(status, until)[i].submittedAt < until
  }

  /** An order young enough for `days_back`: at most that many sessions before the session of `now`. */
  predicate Recent(o: RawOrder, daysBack: Option<int>, cal: Calendar, sessionDistance: (int, int) -> int, nowLabel: int): (r: bool)
    ensures daysBack.None? ==> r
  {
    daysBack.None? || sessionDistance(cal.minuteToSessionLabel(o.submittedAt), nowLabel) <= daysBack.value
  }

  /** How many orders of a page come before the first one too old. */
  function RecentCount(page: seq<RawOrder>, daysBack: Option<int>, cal: Calendar, sessionDistance: (int, int) -> int, nowLabel: int): (n: nat)
    ensures n <= |page|
    ensures forall i :: 0 <= i < n ==> Recent(page[i], daysBack, cal, sessionDistance, nowLabel)
    ensures n < |page| ==> !Recent(page[n], daysBack, cal, sessionDistance, nowLabel)
  {
    if |page| == 0 || !Recent(page[0], daysBack, cal, sessionDistance, nowLabel) then 0
    else
      var n := RecentCount(page[1..], daysBack, cal, sessionDistance, nowLabel);
      assert forall i :: 1 <= i < |page| ==> page[i] == page[1..][i - 1];
      1 + n
  }

  /** Below the count, an order is recent exactly when it comes before the count. */
  lemma RecentBeforeCount(page: seq<RawOrder>, daysBack: Option<int>, cal: Calendar, sessionDistance: (int, int) -> int,
                          nowLabel: int, i: nat)
    requires i < |page| && i <= RecentCount(page, daysBack, cal, sessionDistance, nowLabel)
    ensures Recent(page[i], daysBack, cal, sessionDistance, nowLabel) <==> i < RecentCount(page, daysBack, cal, sessionDistance, nowLabel)
  {
  }

  /**
   * The orders `all_orders` collects from the page listed before `until`
   * on: the page up to the first order too old, and when the whole page is
   * young enough, the pages listed before its last (earliest) order.
   */
  function Collect(status: string, until: int, daysBack: Option<int>, cal: Calendar, sessionDistance: (int, int) -> int,
                   nowLabel: int, listOrders: (string, int) -> seq<RawOrder>): (xs: seq<RawOrder>)
    requires ListsBefore(listOrders)
    ensures forall i :: 0 <= i < |xs| ==> Recent(xs[i], daysBack, cal, sessionDistance, nowLabel)
    ensures forall i :: 0 <= i < |xs| ==> 0 <= xs[i].submittedAt < until
    decreases until
  {
    var page := listOrders(status, until);
    var n := RecentCount(page, daysBack, cal, sessionDistance, nowLabel);
    if |page| == 0 || n < |page| then page[..n]
    else page + Collect(status, page[|page| - 1].submittedAt, daysBack, cal, sessionDistance, nowLabel, listOrders)
  }

  lemma JoinAssoc<T>(a: seq<T>, b: seq<T>, c: seq<T>)
    ensures a + (b + c) == (a + b) + c
  {
  }

  /** One page of `Collect`: the young prefix of the page, followed by the earlier pages when it is the whole page. */
  lemma CollectUnfold(status: string, until: int, daysBack: Option<int>, cal: Calendar, sessionDistance: (int, int) -> int,
                      nowLabel: int, listOrders: (string, int) -> seq<RawOrder>)
    requires ListsBefore(listOrders)
    ensures var page := listOrders(status, until);
      var n := RecentCount(page, daysBack, cal, sessionDistance, nowLabel);
      var xs := Collect(status, until, daysBack, cal, sessionDistance, nowLabel, listOrders);
      && (|page| == 0 || n < |page| ==> xs == page[..n])
      && (|page| > 0 && n == |page| ==>
            0 <= page[|page| - 1].submittedAt < until
            && xs == page + Collect(status, page[|page| - 1].submittedAt, daysBack, cal, sessionDistance, nowLabel, listOrders))
  {
    var page := listOrders(status, until);
    if |page| > 0 {
      assert 0 <= listOrders(status, until)[|page| - 1].submittedAt < until;
    }
  }

  /** Every collected order is young enough, and was submitted before `until`. */
  lemma {:induction false} CollectRecent(status: string, until: int, daysBack: Option<int>, cal: Calendar,
                                         sessionDistance: (int, int) -> int, nowLabel: int, listOrders: (string, int) -> seq<RawOrder>)
    requires ListsBefore(listOrders)
    ensures forall o :: o in Collect(status, until, daysBack, cal, sessionDistance, nowLabel, listOrders) ==>
      Recent(o, daysBack, cal, sessionDistance, nowLabel) && o.submittedAt < until
    decreases until
  {
    var page := listOrders(status, until);
    var n := RecentCount(page, daysBack, cal, sessionDistance, nowLabel);
    assert forall i :: 0 <= i < n ==> page[..n][i] == page[i];
    if |page| > 0 && n == |page| {
      var next := page[|page| - 1].submittedAt;
      assert 0 <= next < until;
      CollectRecent(status, next, daysBack, cal, sessionDistance, nowLabel, listOrders);
      var rest := Collect(status, next, daysBack, cal, sessionDistance, nowLabel, listOrders);
      assert Collect(status, until, daysBack, cal, sessionDistance, nowLabel, listOrders) == page + rest;
      forall o | o in page ensures o.submittedAt < until {
        var i :| 0 <= i < |page| && page[i] == o;
      }
    } else {
      forall o | o in page[..n] ensures Recent(o, daysBack, cal, sessionDistance, nowLabel) && o.submittedAt < until {
        var i :| 0 <= i < n && page[..n][i] == o;
        assert page[i] == o;
      }
    }
  }

  /** `initialize_data` met an id it already tracks: `+=` on two orders, which do not define addition. */
  datatype MergeError = OrderAddition(id: string)

  /** The merge state after the keys outside `remaining` were written over `m`. */
  ghost predicate MergedSoFar<V>(m: map<string, V>, e: map<string, V>, remaining: set<string>, merged: map<string, V>)
  {
    && remaining <= e.Keys
    && (forall k :: k in m && k in e ==> k in remaining)
    && (forall k :: k in merged <==> k in m || (k in e && k !in remaining))
    && (forall k :: k in merged ==> merged[k] == if k in m then m[k] else e[k])
  }

  /** Writing one more key of `e` that the merge does not hold yet. */
  lemma MergedStep<V>(m: map<string, V>, e: map<string, V>, remaining: set<string>, merged: map<string, V>, k: string)
    requires MergedSoFar(m, e, remaining, merged) && k in remaining && k !in merged
    ensures MergedSoFar(m, e, remaining - {k}, merged[k := e[k]])
  {
  }

  /** What the merge state says about `m`, about the keys still to come and, once none are left, about the union. */
  lemma MergedEnd<V>(m: map<string, V>, e: map<string, V>, remaining: set<string>, merged: map<string, V>)
    requires MergedSoFar(m, e, remaining, merged)
    ensures forall k :: k in m ==> k in merged && merged[k] == m[k]
    ensures forall k :: k in merged && k !in m ==> k in e && merged[k] == e[k]
    ensures forall k :: k in remaining ==> (k in merged <==> k in m)
    ensures remaining == {} ==> (forall k :: k in e ==> k !in m) && merged == m + e
  {
    if remaining == {} {
      assert merged.Keys == (m + e).Keys;
    }
  }

  /**
   * The merge loop of `initialize_data`: the entries of `existing` are
   * added one by one until an id is met that `m` already holds (`+=` on
   * two orders, which fails). Returns the state reached and the clashing
   * id, in which case only some of `existing` has been added.
   */
  method MergeNew<V>(m: map<string, V>, existing: map<string, V>) returns (merged: map<string, V>, clash: Option<string>)
    ensures clash.Some? ==> clash.value in existing && clash.value in m
    ensures clash.None? ==> forall k :: k in existing ==> k !in m
    ensures clash.None? ==> merged == m + existing
    ensures forall k :: k in m ==> k in merged && merged[k] == m[k]
    ensures forall k :: k in merged && k !in m ==> k in existing && merged[k] == existing[k]
  {
    merged := m;
    var remaining := existing.Keys;
    while remaining != {}
      invariant MergedSoFar(m, existing, remaining, merged)
      decreases |remaining|
    {
      var k :| k in remaining;
      if k in merged {
        MergedEnd(m, existing, remaining, merged);
        return merged, Some(k);
      }
      MergedStep(m, existing, remaining, merged, k);
      merged := merged[k := existing[k]];
      remaining := remaining - {k};
    }
    MergedEnd(m, existing, remaining, merged);
    clash := None;
  }

  /** One page of `all_orders`: its orders converted, up to the first one too old, and whether one was. */
  method RecentBatch(orders: seq<RawOrder>, daysBack: Option<int>, cal: Calendar, sessionDistance: (int, int) -> int,
                     nowLabel: int, lookup: string -> Asset)
    returns (batch: map<string, Order>, reached: bool)
    ensures batch == MapOf(orders[..RecentCount(orders, daysBack, cal, sessionDistance, nowLabel)], lookup)
    ensures reached <==> RecentCount(orders, daysBack, cal, sessionDistance, nowLabel) < |orders|
    ensures !reached ==> batch == MapOf(orders, lookup)
  {
    ghost var n := RecentCount(orders, daysBack, cal, sessionDistance, nowLabel);
    batch := map[];
    reached := false;
    var i := 0;
    while i < |orders|
      invariant 0 <= i <= n
      invariant batch == MapOf(orders[..i], lookup)
      invariant !reached
    {
      RecentBeforeCount(orders, daysBack, cal, sessionDistance, nowLabel, i);
      if !Recent(orders[i], daysBack, cal, sessionDistance, nowLabel) {
        reached := true;
        return;
      }
      MapOfSnoc(orders, i, lookup);
      batch := batch[orders[i].clientOrderId := Order2Zp(orders[i], lookup)];
      i := i + 1;
    }
    assert i == n == |orders| && orders[..i] == orders;
  }

  /** A page holding an order too old ends the collection with its young prefix. */
  lemma FetchReachesEnd(status: string, until: int, daysBack: Option<int>, cal: Calendar, sessionDistance: (int, int) -> int,
                        nowLabel: int, listOrders: (string, int) -> seq<RawOrder>, listed: seq<RawOrder>, whole: seq<RawOrder>)
    requires ListsBefore(listOrders)
    requires listed + Collect(status, until, daysBack, cal, sessionDistance, nowLabel, listOrders) == whole
    requires var page := listOrders(status, until);
      RecentCount(page, daysBack, cal, sessionDistance, nowLabel) < |page|
    ensures var page := listOrders(status, until);
      listed + page[..RecentCount(page, daysBack, cal, sessionDistance, nowLabel)] == whole
  {
    CollectUnfold(status, until, daysBack, cal, sessionDistance, nowLabel, listOrders);
  }

  /** A page of young orders only is followed by the pages listed before its last order, an earlier time. */
  lemma FetchGoesOn(status: string, until: int, daysBack: Option<int>, cal: Calendar, sessionDistance: (int, int) -> int,
                    nowLabel: int, listOrders: (string, int) -> seq<RawOrder>, listed: seq<RawOrder>, whole: seq<RawOrder>)
    requires ListsBefore(listOrders)
    requires listed + Collect(status, until, daysBack, cal, sessionDistance, nowLabel, listOrders) == whole
    requires var page := listOrders(status, until);
      |page| > 0 && RecentCount(page, daysBack, cal, sessionDistance, nowLabel) == |page|
    ensures var page := listOrders(status, until);
      var next := page[|page| - 1].submittedAt;
      && next < until
      && (listed + page) + Collect(status, next, daysBack, cal, sessionDistance, nowLabel, listOrders) == whole
  {
    var page := listOrders(status, until);
    var next := page[|page| - 1].submittedAt;
    CollectUnfold(status, until, daysBack, cal, sessionDistance, nowLabel, listOrders);
    JoinAssoc(listed, page, Collect(status, next, daysBack, cal, sessionDistance, nowLabel, listOrders));
  }

  /** An empty page ends the collection. */
  lemma FetchRunsOut(status: string, until: int, daysBack: Option<int>, cal: Calendar, sessionDistance: (int, int) -> int,
                     nowLabel: int, listOrders: (string, int) -> seq<RawOrder>, listed: seq<RawOrder>, whole: seq<RawOrder>)
    requires ListsBefore(listOrders)
    requires listed + Collect(status, until, daysBack, cal, sessionDistance, nowLabel, listOrders) == whole
    requires |listOrders(status, until)| == 0
    ensures listed == whole
  {
    CollectUnfold(status, until, daysBack, cal, sessionDistance, nowLabel, listOrders);
    assert listed + [] == listed;
  }

  /**
   * One round of the pagination loop of `all_orders`: the kept orders of a
   * non-empty page are merged in; unless one was too old, the next page
   * is listed from the time of the page's last (earliest) order.
   */
  method NextPage(status: string, until: int, orders: seq<RawOrder>, daysBack: Option<int>, cal: Calendar,
                  sessionDistance: (int, int) -> int, nowLabel: int, listOrders: (string, int) -> seq<RawOrder>,
                  lookup: string -> Asset, r: map<string, Order>, ghost listed: seq<RawOrder>, ghost whole: seq<RawOrder>)
    returns (merged: map<string, Order>, reached: bool, nextUntil: int, nextOrders: seq<RawOrder>, ghost nextListed: seq<RawOrder>)
    requires ListsBefore(listOrders)
    requires orders == listOrders(status, until) && |orders| > 0
    requires r == MapOf(listed, lookup)
    requires listed + Collect(status, until, daysBack, cal, sessionDistance, nowLabel, listOrders) == whole
    ensures merged == MapOf(nextListed, lookup)
    ensures reached ==> nextListed == whole && nextUntil == until && nextOrders == orders
    ensures !reached ==> (nextUntil < until && nextOrders == listOrders(status, nextUntil) &&
      nextListed + Collect(status, nextUntil, daysBack, cal, sessionDistance, nowLabel, listOrders) == whole)
  {
    var batch;
    batch, reached := RecentBatch(orders, daysBack, cal, sessionDistance, nowLabel, lookup);
    merged := r + batch;
    nextUntil, nextOrders := until, orders;
    if reached {
      ghost var n := RecentCount(orders, daysBack, cal, sessionDistance, nowLabel);
      FetchReachesEnd(status, until, daysBack, cal, sessionDistance, nowLabel, listOrders, listed, whole);
      MapOfAppend(listed, orders[..n], lookup);
      nextListed := listed + orders[..n];
    } else {
      MapOfAppend(listed, orders, lookup);
      FetchGoesOn(status, until, daysBack, cal, sessionDistance, nowLabel, listOrders, listed, whole);
      nextListed := listed + orders;
      nextUntil := orders[|orders| - 1].submittedAt;
      nextOrders := listOrders(status, nextUntil);
    }
  }

  /**
   * The pagination loop of `all_orders`: pages are listed from `start`
   * backwards, each from the time of the last (earliest) order of the one
   * before, until a page is empty or holds an order too old; the kept
   * orders of each page are merged over those of the pages before.
   */
  method FetchOrders(status: string, start: int, daysBack: Option<int>, cal: Calendar, sessionDistance: (int, int) -> int,
                     nowLabel: int, listOrders: (string, int) -> seq<RawOrder>, lookup: string -> Asset)
    returns (r: map<string, Order>)
    requires ListsBefore(listOrders)
    ensures r == MapOf(Collect(status, start, daysBack, cal, sessionDistance, nowLabel, listOrders), lookup)
  {
    var reached := false;
    r := map[];
    ghost var listed: seq<RawOrder> := [];
    ghost var whole := Collect(status, start, daysBack, cal, sessionDistance, nowLabel, listOrders);
    var until := start;
    var orders := listOrders(status, until);
    while |orders| > 0 && !reached
      invariant orders == listOrders(status, until)
      invariant r == MapOf(listed, lookup)
      invariant !reached ==> listed + Collect(status, until, daysBack, cal, sessionDistance, nowLabel, listOrders) == whole
      invariant reached ==> listed == whole
      decreases until, if reached then 0 else 1
    {
      r, reached, until, orders, listed := NextPage(status, until, orders, daysBack, cal, sessionDistance, nowLabel,
                                                    listOrders, lookup, r, listed, whole);
    }
    if !reached {
      FetchRunsOut(status, until, daysBack, cal, sessionDistance, nowLabel, listOrders, listed, whole);
    }
  }

  class AlpacaBackend {
    const submit: Submit
    const lookup: string -> Asset
    const held: Asset -> int
    const listOrders: (string, int) -> seq<RawOrder>
    const calendar: Calendar
    const sessionDistance: (int, int) -> int
    var openOrders: map<string, Order>
    var pending: map<string, Pending>

    /** A backend tracking no orders. */
    constructor(submit: Submit, lookup: string -> Asset, held: Asset -> int, listOrders: (string, int) -> seq<RawOrder>,
                calendar: Calendar, sessionDistance: (int, int) -> int)
      ensures this.submit == submit && this.lookup == lookup && this.held == held && this.listOrders == listOrders
      ensures this.calendar == calendar && this.sessionDistance == sessionDistance
      ensures openOrders == map[] && pending == map[]
    {
      this.submit := submit;
      this.lookup := lookup;
      this.held := held;
      this.listOrders := listOrders;
      this.calendar := calendar;
      this.sessionDistance := sessionDistance;
      openOrders := map[];
      pending := map[];
    }

    function Tables(): Book
      reads this
    {
      Book(openOrders, pending)
    }

    /** `order`: the tables and the answer as `PlaceOrder` gives them, with the position held now. */
    method Order(asset: Asset, amount: int, style: ExecutionStyle, compatible: bool, freshId: string) returns (r: Option<Order>)
      modifies this
      ensures (Tables(), r) == PlaceOrder(old(Tables()), asset, amount, style, compatible, held(asset), freshId, submit, lookup)
    {
      var now := amount;
      if compatible {
        var position := held(asset);
        if IntAbs(amount) > IntAbs(position) && amount * position < 0 {
          pending := pending[freshId := Pending(asset, amount + position, style)];
          now := -position;
        }
      }
      var answer := submit(Request(asset, now, style, freshId));
      if answer.None? {
        r := None;
      } else {
        var z := Order2Zp(answer.value, lookup);
        openOrders := openOrders[freshId := z];
        r := Some(z);
      }
    }

    /** `handle_trade_update`, taken as one atomic step. */
    method HandleTradeUpdate(event: string, data: RawOrder, freshId: string)
      modifies this
      ensures Tables() == TradeUpdate(old(Tables()), event, data, freshId, held, submit, lookup)
    {
      var id := data.clientOrderId;
      if id in pending {
        var waiting := pending[id];
        if event == "fill" {
          var _ := Order(waiting.asset, waiting.amount, waiting.style, true, freshId);
          pending := pending - {id};
        } else if event == "canceled" || event == "rejected" {
          pending := pending - {id};
        }
      }
      if Terminal(event) {
        openOrders := openOrders - {id};
      } else {
        openOrders := openOrders[id := Order2Zp(data, lookup)];
      }
    }

    /**
     * `all_orders`: the tracked open orders themselves when only those are
     * asked for; otherwise the orders collected from the broker page by
     * page, from `before` (or `now`) backwards, each id mapped to its last
     * listed order.
     */
    method AllOrders(before: Option<int>, status: string, daysBack: Option<int>, initialize: bool, now: int)
      returns (r: map<string, Order>)
      requires ListsBefore(listOrders)
      ensures ShortCircuit(before, status, daysBack, initialize) ==> r == openOrders
      ensures !ShortCircuit(before, status, daysBack, initialize) ==>
        r == MapOf(Collect(status, if before.Some? then before.value else now, daysBack, calendar, sessionDistance,
                           calendar.minuteToSessionLabel(now), listOrders), lookup)
    {
      if ShortCircuit(before, status, daysBack, initialize) {
        return openOrders;
      }
      var start := if before.Some? then before.value else now;
      r := FetchOrders(status, start, daysBack, calendar, sessionDistance, calendar.minuteToSessionLabel(now), listOrders, lookup);
    }

    /** `initialize_data`: the broker's open orders, listed from `now` backwards, merged into the tracked ones. */
    method InitializeData(now: int) returns (r: Result<(), MergeError>)
      requires ListsBefore(listOrders)
      modifies this
      ensures var existing := MapOf(Collect("open", now, None, calendar, sessionDistance,
                                            calendar.minuteToSessionLabel(now), listOrders), lookup);
        && (r.Err? ==> r.error.id in existing && r.error.id in old(openOrders))
        && (r.Ok? ==> forall k :: k in existing ==> k !in old(openOrders))
        && (r.Ok? ==> openOrders == old(openOrders) + existing)
      ensures pending == old(pending)
    {
      var existing := AllOrders(None, "open", None, true, now);
      var merged, clash := MergeNew(openOrders, existing);
      openOrders := merged;
      r := if clash.Some? then Err(OrderAddition(clash.value)) else Ok(());
    }
  }
}
