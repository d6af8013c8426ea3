/**
 * `get_all_orders`: the backend's orders sorted by time, oldest first,
 * and grouped into one list per asset.
 */
module OrderGrouping {
  import opened Wrappers
  import opened Assets
  import opened Orders

  /** Orders whose times never decrease. */
  predicate SortedByDt(os: seq<Order>)
  {
    forall i, j :: 0 <= i < j < |os| ==> os[i].dt <= os[j].dt
  }

  /** No order of `os` is older than `b`. */
  predicate NotBefore(os: seq<Order>, b: int)
  {
    forall i :: 0 <= i < |os| ==> b <= os[i].dt
  }

  /** `o` placed after every order of `sorted` that is not later than it (a stable insertion). */
  function Insert(o: Order, sorted: seq<Order>): (r: seq<Order>)
    requires SortedByDt(sorted)
    ensures SortedByDt(r)
    ensures multiset(r) == multiset(sorted) + multiset{o}
    ensures |r| == |sorted| + 1
    ensures forall b :: NotBefore(sorted, b) && b <= o.dt ==> NotBefore(r, b)
  {
    if |sorted| == 0 then [o]
    else if o.dt < sorted[0].dt then [o] + sorted
    else
      var rest := Insert(o, sorted[1..]);
      InsertBehind(o, sorted, rest);
      [sorted[0]] + rest
  }

  /** The step of `Insert` past an order no later than `o`. */
  lemma InsertBehind(o: Order, sorted: seq<Order>, rest: seq<Order>)
    requires SortedByDt(sorted) && |sorted| > 0 && sorted[0].dt <= o.dt
    requires SortedByDt(rest) && multiset(rest) == multiset(sorted[1..]) + multiset{o}
    requires |rest| == |sorted| && forall b :: NotBefore(sorted[1..], b) && b <= o.dt ==> NotBefore(rest, b)
    ensures var r := [sorted[0]] + rest;
      && SortedByDt(r)
      && multiset(r) == multiset(sorted) + multiset{o}
      && |r| == |sorted| + 1
      && forall b :: NotBefore(sorted, b) && b <= o.dt ==> NotBefore(r, b)
  {
    var r := [sorted[0]] + rest;
    assert NotBefore(sorted[1..], sorted[0].dt);
    assert NotBefore(rest, sorted[0].dt);
    assert forall j :: 1 <= j < |r| ==> r[j] == rest[j - 1];
    assert sorted == [sorted[0]] + sorted[1..];
    forall b | NotBefore(sorted, b) && b <= o.dt ensures NotBefore(r, b) {
      assert NotBefore(sorted[1..], b);
    }
  }

  /** `sorted(orders, key=lambda o: o.dt)`: the same orders, oldest first. */
  function SortByDt(os: seq<Order>): (r: seq<Order>)
    ensures SortedByDt(r)
    ensures multiset(r) == multiset(os)
    ensures |r| == |os|
  {
    if |os| == 0 then []
    else
      assert os == os[..|os| - 1] + [os[|os| - 1]];
      Insert(os[|os| - 1], SortByDt(os[..|os| - 1]))
  }

  /** The orders of one asset, in the order given. */
  function OrdersOf(os: seq<Order>, a: Asset): (r: seq<Order>)
    ensures forall i :: 0 <= i < |r| ==> r[i].asset == a
    ensures |r| <= |os|
  {
    if |os| == 0 then []
    else if os[|os| - 1].asset == a then OrdersOf(os[..|os| - 1], a) + [os[|os| - 1]]
    else OrdersOf(os[..|os| - 1], a)
  }

  /** Picking one asset's orders keeps every order no later than a bound that held for all. */
  lemma {:induction false} OrdersOfBounded(os: seq<Order>, a: Asset, b: int)
    requires forall i :: 0 <= i < |os| ==> os[i].dt <= b
    ensures forall i :: 0 <= i < |OrdersOf(os, a)| ==> OrdersOf(os, a)[i].dt <= b
  {
    if |os| > 0 {
      OrdersOfBounded(os[..|os| - 1], a, b);
    }
  }

  /** Picking one asset's orders keeps them sorted. */
  lemma {:induction false} OrdersOfSorted(os: seq<Order>, a: Asset)
    requires SortedByDt(os)
    ensures SortedByDt(OrdersOf(os, a))
  {
    if |os| > 0 {
      var init := os[..|os| - 1];
      var last := os[|os| - 1];
      OrdersOfSorted(init, a);
      OrdersOfBounded(init, a, last.dt);
    }
  }

  /** Picking one asset's orders keeps exactly those orders, as often as they occur. */
  lemma {:induction false} OrdersOfCounts(os: seq<Order>, a: Asset)
    ensures forall o :: multiset(OrdersOf(os, a))[o] == if o.asset == a then multiset(os)[o] else 0
  {
    if |os| > 0 {
      var init := os[..|os| - 1];
      assert os == init + [os[|os| - 1]];
      OrdersOfCounts(init, a);
    }
  }

  /** An asset gets no orders exactly when none of the orders is for it. */
  lemma {:induction false} OrdersOfEmpty(os: seq<Order>, a: Asset)
    ensures |OrdersOf(os, a)| == 0 <==> forall i :: 0 <= i < |os| ==> os[i].asset != a
  {
    if |os| > 0 {
      var init := os[..|os| - 1];
      OrdersOfEmpty(init, a);
      assert forall i :: 0 <= i < |init| ==> init[i] == os[i];
    }
  }

  /** The assets that have at least one order. */
  function AssetsOf(os: seq<Order>): set<Asset>
  {
    set i | 0 <= i < |os| :: os[i].asset
  }

  /** The grouping: one entry per asset with orders, holding its orders in the order given. */
  function Grouped(os: seq<Order>): map<Asset, seq<Order>>
  {
    map a | a in AssetsOf(os) :: OrdersOf(os, a)
  }

  /** What `get_all_orders` returns: the whole map without an asset, or one asset's list. */
  datatype AllOrders = ByAsset(groups: map<Asset, seq<Order>>) | ForAsset(orders: seq<Order>)

  /**
   * `get_all_orders(asset)`: the loop over the sorted orders appends each
   * one to its asset's list; the map is returned for no asset, that
   * asset's list (or `[]`) otherwise.
   */
  method GetAllOrders(backendOrders: seq<Order>, asset: Option<Asset>) returns (r: AllOrders)
    ensures asset.None? ==> r == ByAsset(Grouped(SortByDt(backendOrders)))
    ensures asset.Some? ==> r == ForAsset(OrdersOf(SortByDt(backendOrders), asset.value))
  {
    var sorted := SortByDt(backendOrders);
    var omap := GroupOrders(sorted);
    if asset.None? {
      return ByAsset(omap);
    }
    if asset.value in omap {
      return ForAsset(omap[asset.value]);
    }
    OrdersOfEmpty(sorted, asset.value);
    return ForAsset([]);
  }

  /** The loop of `get_all_orders`: each order appended to its asset's list, the list made when missing. */
  method GroupOrders(sorted: seq<Order>) returns (omap: map<Asset, seq<Order>>)
    ensures omap == Grouped(sorted)
  {
    omap := map[];
    for i := 0 to |sorted|
      invariant omap == Grouped(sorted[..i])
    {
      var o := sorted[i];
      var key := o.asset;
      assert sorted[..i + 1] == sorted[..i] + [o];
      GroupedSnoc(sorted[..i], o);
      var list := if key in omap then omap[key] else [];
      omap := omap[key := list + [o]];
    }
    assert sorted[..|sorted|] == sorted;
  }

  /** Appending an order extends its asset's list and leaves the other lists alone. */
  lemma GroupedSnoc(os: seq<Order>, o: Order)
    ensures var g := Grouped(os);
      Grouped(os + [o]) == g[o.asset := (if o.asset in g then g[o.asset] else []) + [o]]
  {
    var g, g' := Grouped(os), Grouped(os + [o]);
    assert (os + [o])[..|os|] == os;
    assert AssetsOf(os + [o]) == AssetsOf(os) + {o.asset} by {
      assert (os + [o])[|os|] == o;
      forall a | a in AssetsOf(os) ensures a in AssetsOf(os + [o]) {
        var i :| 0 <= i < |os| && os[i].asset == a;
        assert (os + [o])[i] == os[i];
      }
    }
    if o.asset !in g {
      OrdersOfEmpty(os, o.asset);
    }
  }

  /**
   * An asset has a list exactly when one of the orders is for it, and an
   * asset without orders gets the empty list.
   */
  lemma GetAllOrdersKeys(backendOrders: seq<Order>, a: Asset)
    ensures a in Grouped(SortByDt(backendOrders)) <==> exists i :: 0 <= i < |backendOrders| && backendOrders[i].asset == a
    ensures (forall i :: 0 <= i < |backendOrders| ==> backendOrders[i].asset != a) ==>
      OrdersOf(SortByDt(backendOrders), a) == []
  {
    var sorted := SortByDt(backendOrders);
    OrdersOfEmpty(sorted, a);
    if exists i :: 0 <= i < |backendOrders| && backendOrders[i].asset == a {
      var i :| 0 <= i < |backendOrders| && backendOrders[i].asset == a;
      assert backendOrders[i] in multiset(sorted);
      var k :| 0 <= k < |sorted| && sorted[k] == backendOrders[i];
      assert a in AssetsOf(sorted);
    }
    if a in AssetsOf(sorted) {
      var k :| 0 <= k < |sorted| && sorted[k].asset == a;
      assert sorted[k] in multiset(backendOrders);
      var i :| 0 <= i < |backendOrders| && backendOrders[i] == sorted[k];
    }
  }

  /** Each asset's list is exactly that asset's orders, oldest first, as often as they occur. */
  lemma GetAllOrdersGroups(backendOrders: seq<Order>, a: Asset)
    ensures var groups := Grouped(SortByDt(backendOrders));
      a in groups ==>
        SortedByDt(groups[a])
        && forall o :: multiset(groups[a])[o] == if o.asset == a then multiset(backendOrders)[o] else 0
  {
    var sorted := SortByDt(backendOrders);
    OrdersOfSorted(sorted, a);
    OrdersOfCounts(sorted, a);
  }
}
