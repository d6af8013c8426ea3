/**
 * The arithmetic helpers of the example strategy scripts: rounding a limit
 * price to five cents and the even weight of the names to buy.
 */
module PriceHelpers {
  import opened Wrappers

  /** `m` five-cent steps. */
  function Nickels(m: int): real
  {
    m as real / 20.0
  }

  /** Twenty times the price is a whole number: a multiple of five cents. */
  predicate IsNickelMultiple(x: real)
  {
    (x * 20.0).Floor as real == x * 20.0
  }

  /** The multiples of five cents are exactly the whole numbers of five-cent steps. */
  lemma NickelMultipleIff(x: real)
    ensures IsNickelMultiple(x) <==> exists m :: Nickels(m) == x
  {
    if IsNickelMultiple(x) {
      assert Nickels((x * 20.0).Floor) == x;
    }
    if exists m :: Nickels(m) == x {
      var m :| Nickels(m) == x;
      assert x * 20.0 == m as real;
    }
  }

  /** `math.ceil` */
  function Ceil(x: real): (n: int)
    ensures n as real - 1.0 < x <= n as real
  {
    -((-x).Floor)
  }

  /**
   * `make_div_by_05`: a buy price is rounded down and a sell price up to
   * five cents (the sell side is the default), so a price already on five
   * cents stays.
   */
  function MakeDivBy05(s: real, buy: bool): (r: real)
    ensures IsNickelMultiple(r)
    ensures buy ==> r <= s < r + 0.05
    ensures !buy ==> r - 0.05 < s <= r
    ensures buy ==> forall m :: Nickels(m) <= s ==> Nickels(m) <= r
    ensures !buy ==> forall m :: s <= Nickels(m) ==> r <= Nickels(m)
    ensures IsNickelMultiple(s) ==> r == s
  {
    if buy then
      RoundDown(s);
      Nickels((s * 20.0).Floor)
    else
      RoundUp(s);
      Nickels(Ceil(s * 20.0))
  }

  /** Whole steps are on five cents. */
  lemma NickelsWhole(n: int)
    ensures Nickels(n) * 20.0 == n as real
    ensures IsNickelMultiple(Nickels(n))
  {
  }

  /** Rounding down: the largest multiple of five cents at most `s`. */
  lemma RoundDown(s: real)
    ensures var r := Nickels((s * 20.0).Floor);
      && IsNickelMultiple(r) && r <= s < r + 0.05
      && (forall m :: Nickels(m) <= s ==> Nickels(m) <= r)
      && (IsNickelMultiple(s) ==> r == s)
  {
    var n := (s * 20.0).Floor;
    NickelsWhole(n);
    forall m | Nickels(m) <= s ensures Nickels(m) <= Nickels(n) {
      assert m as real <= s * 20.0;
      FloorGreatest(s * 20.0, m);
      NickelsMonotone(m, n);
    }
  }

  /** A whole number at most `x` is at most its floor. */
  lemma FloorGreatest(x: real, m: int)
    requires m as real <= x
    ensures m <= x.Floor
  {
  }

  /** A whole number is its own floor. */
  lemma FloorOfWhole(k: int)
    ensures (k as real).Floor == k
  {
  }

  /** More steps are more money. */
  lemma NickelsMonotone(m: int, n: int)
    requires m <= n
    ensures Nickels(m) <= Nickels(n)
  {
  }

  /** Rounding up: the smallest multiple of five cents at least `s`. */
  lemma RoundUp(s: real)
    ensures var r := Nickels(Ceil(s * 20.0));
      && IsNickelMultiple(r) && r - 0.05 < s <= r
      && (forall m :: s <= Nickels(m) ==> r <= Nickels(m))
      && (IsNickelMultiple(s) ==> r == s)
  {
    var n := Ceil(s * 20.0);
    NickelsWhole(n);
    forall m | s <= Nickels(m) ensures Nickels(n) <= Nickels(m) {
      assert s * 20.0 <= m as real;
      FloorGreatest(-(s * 20.0), -m);
      NickelsMonotone(n, m);
    }
    if IsNickelMultiple(s) {
      var k := (s * 20.0).Floor;
      assert -(s * 20.0) == (-k) as real;
      FloorOfWhole(-k);
    }
  }

  /** Rounding twice changes nothing more. */
  lemma MakeDivBy05Idempotent(s: real, buy: bool)
    ensures MakeDivBy05(MakeDivBy05(s, buy), buy) == MakeDivBy05(s, buy)
  {
  }

  /** Two examples: 10.07 goes down to 10.05 to buy and up to 10.10 to sell. */
  lemma MakeDivBy05Test()
    ensures MakeDivBy05(10.07, true) == 10.05
    ensures MakeDivBy05(10.07, false) == 10.10
  {
    assert (10.07 * 20.0).Floor == 201;
    assert (-(10.07 * 20.0)).Floor == -202;
  }

  /** Why `my_compute_weights` raises. */
  datatype WeightError = ZeroDivision

  /** `my_compute_weights`: every one of `count` names gets the same share of one. */
  function ComputeWeights(count: nat): (r: Result<real, WeightError>)
    ensures r.Ok? <==> count > 0
    ensures r.Ok? ==> r.value > 0.0 && r.value * count as real == 1.0
  {
    if count == 0 then Err(ZeroDivision) else Ok(1.0 / count as real)
  }
}
