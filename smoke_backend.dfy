/**
 * The smoke-test backend: a minimal simulator that fills orders against
 * the fake minute bars. Positions and orders are dictionaries with their
 * insertion order; a fill pops the asset's position and, when something
 * is still held, writes it back, so it moves to the end.
 */
module SmokeBackends {
  import opened Wrappers
  import opened Strings
  import opened Assets
  import opened Orders
  import opened OrderRules
  import opened OrderedDicts
  import opened BarFrames
  import Brokers

  // ---- Symbols of the fake universe

  /** The upper-case letter for a digit below 26. */
  function Letter(d: nat): (c: char)
    requires d < 26
    ensures 'A' <= c <= 'Z'
    ensures c as int - 'A' as int == d
  {
    (('A' as int) + d) as char
  }

  /** A non-empty word of upper-case letters. */
  predicate IsUpperWord(s: string)
  {
    |s| > 0 && forall i :: 0 <= i < |s| ==> 'A' <= s[i] <= 'Z'
  }

  /**
   * The symbol of the `n`-th fake equity: `n` written in bijective base 26
   * with the digits A..Z, so 0 is "A", 25 is "Z" and 26 is "AA".
   */
  function Symbol(n: nat): (s: string)
    ensures IsUpperWord(s)
    decreases n
  {
    if n < 26 then [Letter(n)] else Symbol(n / 26 - 1) + [Letter(n % 26)]
  }

  /** The number a word of upper-case letters stands for in bijective base 26. */
  function SymbolValue(s: string): (n: nat)
    requires IsUpperWord(s)
    ensures |s| == 1 <==> n < 26
    decreases |s|
  {
    var d := s[|s| - 1] as int - 'A' as int;
    if |s| == 1 then d else (SymbolValue(s[..|s| - 1]) + 1) * 26 + d
  }

  /** Reading a symbol back gives its number. */
  lemma {:induction false} SymbolValueOfSymbol(n: nat)
    ensures SymbolValue(Symbol(n)) == n
    decreases n
  {
    if n >= 26 {
      var s := Symbol(n);
      SymbolValueOfSymbol(n / 26 - 1);
      assert s[..|s| - 1] == Symbol(n / 26 - 1);
    }
  }

  /** Every non-empty upper-case word is the symbol of its number: the naming is onto. */
  lemma {:induction false} SymbolOfSymbolValue(s: string)
    requires IsUpperWord(s)
    ensures Symbol(SymbolValue(s)) == s
    decreases |s|
  {
    var d := s[|s| - 1] as int - 'A' as int;
    assert Letter(d) == s[|s| - 1];
    if |s| > 1 {
      var init := s[..|s| - 1];
      var w := SymbolValue(init);
      SymbolOfSymbolValue(init);
      var v := (w + 1) * 26 + d;
      assert v / 26 == w + 1 && v % 26 == d;
      assert s == init + [s[|s| - 1]];
    }
  }

  /** Distinct numbers get distinct symbols. */
  lemma SymbolInjective(m: nat, n: nat)
    ensures Symbol(m) == Symbol(n) <==> m == n
  {
    SymbolValueOfSymbol(m);
    SymbolValueOfSymbol(n);
  }

  /** The symbols at the ends of the one- and two-letter ranges. */
  lemma SymbolExamples()
    ensures Symbol(0) == "A" && Symbol(25) == "Z" && Symbol(26) == "AA" && Symbol(701) == "ZZ" && Symbol(702) == "AAA"
  {
  }

  /** A string reversed. */
  function Reversed(s: string): (r: string)
    ensures |r| == |s|
    ensures forall i :: 0 <= i < |s| ==> r[i] == s[|s| - 1 - i]
  {
    if |s| == 0 then [] else [s[|s| - 1]] + Reversed(s[..|s| - 1])
  }

  /** The symbol still to be produced for what is left of the number, empty once it is below zero. */
  function SymbolOrEmpty(m: int): string
  {
    if m >= 0 then Symbol(m) else []
  }

  /** The last letter of a symbol is the number modulo 26; what precedes it is the symbol of the quotient less one. */
  lemma SymbolStep(m: nat)
    ensures Symbol(m) == SymbolOrEmpty(m / 26 - 1) + [Letter(m % 26)]
  {
  }

  /** One turn of `_num_to_symbol`'s loop keeps what is left plus the reversed buffer the same. */
  lemma BufferStep(m: nat, buf: string)
    ensures SymbolOrEmpty(m) + Reversed(buf) == SymbolOrEmpty(m / 26 - 1) + Reversed(buf + [Letter(m % 26)])
  {
    SymbolStep(m);
    ReversedSnoc(buf, Letter(m % 26));
  }

  /** Reversing a buffer with one more letter puts that letter first. */
  lemma ReversedSnoc(buf: string, c: char)
    ensures Reversed(buf + [c]) == [c] + Reversed(buf)
  {
    assert (buf + [c])[..|buf|] == buf;
  }

  /**
   * `_num_to_symbol`: the letters are produced last first into a buffer,
   * which is reversed at the end. A negative number gives the empty string.
   */
  method NumToSymbol(n: int) returns (s: string)
    ensures n >= 0 ==> s == Symbol(n)
    ensures n < 0 ==> s == []
  {
    var buf: seq<char> := [];
    var m := n;
    while m >= 0
      invariant n < 0 ==> m == n && buf == []
      invariant n >= 0 ==> m >= -1 && Symbol(n) == SymbolOrEmpty(m) + Reversed(buf)
      decreases m + 1
    {
      var a := m % 26;
      var b := m / 26 - 1;
      if n >= 0 {
        BufferStep(m, buf);
      }
      buf := buf + [Letter(a)];
      m := b;
    }
    s := Reversed(buf);
  }

  /** `get_equities`: the universe of `size` equities holds one distinct symbol per sid. */
  function UniverseSymbols(size: nat): (r: seq<string>)
    ensures |r| == size
    ensures forall i :: 0 <= i < size ==> r[i] == Symbol(i)
    ensures forall i, j :: 0 <= i < j < size ==> r[i] != r[j]
  {
    var r := seq(size, i requires 0 <= i < size => Symbol(i));
    assert forall i, j :: 0 <= i < j < size ==> r[i] != r[j] by {
      forall i, j | 0 <= i < j < size ensures r[i] != r[j] {
        SymbolInjective(i, j);
      }
    }
    r
  }

  // ---- Fill checks

  /**
   * `_check_fill`: whether an order fills on the bars since it was placed,
   * or `None` when there is no bar (the last close does not exist). A buy
   * fills when its limit, if any, is at or above the last close and its
   * stop, if any, was reached by some high; a sell (any amount that is not
   * positive) mirrors this with the lows.
   */
  function CheckFill(o: Order, df: seq<Bar>): (r: Option<bool>)
    ensures r.None? <==> |df| == 0
    ensures |df| > 0 && o.amount > 0 ==> (r.value <==>
      (o.limit.Some? ==> df[|df| - 1].close <= o.limit.value) &&
      (o.stop.Some? ==> exists i :: 0 <= i < |df| && df[i].high >= o.stop.value))
    ensures |df| > 0 && o.amount <= 0 ==> (r.value <==>
      (o.limit.Some? ==> df[|df| - 1].close >= o.limit.value) &&
      (o.stop.Some? ==> exists i :: 0 <= i < |df| && df[i].low <= o.stop.value))
  {
    if |df| == 0 then None
    else
      var price := df[|df| - 1].close;
      if o.amount > 0 then
        var maxPrice := MaxHigh(df);
        if o.limit.Some? && o.stop.Some? then Some(price <= o.limit.value && maxPrice >= o.stop.value)
        else if o.stop.Some? then Some(maxPrice >= o.stop.value)
        else if o.limit.Some? then Some(price <= o.limit.value)
        else Some(true)
      else
        var minPrice := MinLow(df);
        if o.limit.Some? && o.stop.Some? then Some(price >= o.limit.value && minPrice <= o.stop.value)
        else if o.stop.Some? then Some(minPrice <= o.stop.value)
        else if o.limit.Some? then Some(price >= o.limit.value)
        else Some(true)
  }

  // ---- Positions, cash and fills

  /** A position: the amount held, its average cost, and the last sale. */
  datatype Position = Position(amount: int, costBasis: real, lastSalePrice: Option<real>, lastSaleDate: Option<int>)

  /** The position a fill starts from when the asset is not held. */
  const NoPosition := Position(0, 0.0, None, None)

  /**
   * The part of the backend a fill changes: the portfolio's cash, the
   * account's cash (unset until the first fill) and buying power, the
   * positions by asset and the orders by sequence number.
   */
  datatype Ledger = Ledger(
    cash: real,
    accountCash: Option<real>,
    buyingPower: real,
    positions: seq<(Asset, Position)>,
    orders: seq<(nat, Order)>)

  /** What a position cost: cost basis times amount. */
  function Cost(p: Position): real
  {
    p.costBasis * (p.amount as real)
  }

  /** `positions_value`: the sum of the positions' costs. */
  function BookValue(ps: seq<(Asset, Position)>): real
  {
    if |ps| == 0 then 0.0 else Cost(ps[0].1) + BookValue(ps[1..])
  }

  /** `positions.pop(asset, None)`'s value, with a fresh empty position for a missing asset. */
  function HeldPosition(ps: seq<(Asset, Position)>, a: Asset): Position
  {
    var p := Get(ps, a);
    if p.Some? then p.value else NoPosition
  }

  /** The value of an asset's position is missing from the book once the asset is removed. */
  lemma {:induction false} BookValueRemove(ps: seq<(Asset, Position)>, a: Asset)
    requires DistinctKeys(ps)
    ensures BookValue(ps) == BookValue(Remove(ps, a)) + Cost(HeldPosition(ps, a))
  {
    if |ps| > 0 {
      assert DistinctKeys(ps[1..]) by {
        forall i, j | 0 <= i < j < |ps| - 1 ensures ps[1..][i].0 != ps[1..][j].0 {
          assert ps[1..][i] == ps[i + 1] && ps[1..][j] == ps[j + 1];
        }
      }
      BookValueRemove(ps[1..], a);
      if ps[0].0 == a {
        assert Get(ps[1..], a).None? by {
          forall i | 0 <= i < |ps| - 1 ensures ps[1..][i].0 != a {
            assert ps[1..][i] == ps[i + 1];
          }
        }
      } else {
        var r := Remove(ps, a);
        assert r == [ps[0]] + Remove(ps[1..], a);
        assert r[1..] == Remove(ps[1..], a);
      }
    }
  }

  /** The book gains a position's cost when it is added at the end. */
  lemma {:induction false} BookValueSnoc(ps: seq<(Asset, Position)>, x: (Asset, Position))
    ensures BookValue(ps + [x]) == BookValue(ps) + Cost(x.1)
  {
    if |ps| > 0 {
      assert (ps + [x])[1..] == ps[1..] + [x];
      BookValueSnoc(ps[1..], x);
    }
  }

  /** The position after a fill that leaves shares: the new amount at the weighted average cost, sold at `now`. */
  function Moved(pos: Position, o: Order, price: real, now: int): (p: Position)
    requires pos.amount + o.amount != 0
    ensures p.amount == pos.amount + o.amount && p.lastSaleDate == Some(now)
    ensures p.(costBasis := pos.costBasis, amount := pos.amount, lastSaleDate := pos.lastSaleDate) == pos
  {
    var newAmount := pos.amount + o.amount;
    var newVolume := price * (o.amount as real) + pos.costBasis * (pos.amount as real);
    pos.(costBasis := newVolume / (newAmount as real), amount := newAmount, lastSaleDate := Some(now))
  }

  /** A quotient times its divisor. */
  lemma DivTimes(x: real, y: real)
    requires y != 0.0
    ensures (x / y) * y == x
  {
  }

  /** The moved position costs what the old one did plus what the fill paid. */
  lemma MovedCost(pos: Position, o: Order, price: real, now: int)
    requires pos.amount + o.amount != 0
    ensures Moved(pos, o, price, now).amount == pos.amount + o.amount
    ensures Cost(Moved(pos, o, price, now)) == price * (o.amount as real) + Cost(pos)
  {
    var newVolume := price * (o.amount as real) + pos.costBasis * (pos.amount as real);
    DivTimes(newVolume, (pos.amount + o.amount) as real);
  }

  /**
   * The cash side of a fill that leaves a non-negative position: cash and
   * buying power pay price times amount (a sale brings them in), the
   * account's cash follows the portfolio's, and a position that is not
   * closed goes back at the end.
   */
  function Settle(l: Ledger, rest: seq<(Asset, Position)>, pos: Position, o: Order, price: real, now: int): (r: Ledger)
    ensures r.cash == l.cash - price * (o.amount as real) && r.accountCash == Some(r.cash)
    ensures r.buyingPower == l.buyingPower - price * (o.amount as real)
    ensures r.orders == l.orders
  {
    var volume := price * (o.amount as real);
    var cash := l.cash - volume;
    var positions := if pos.amount + o.amount == 0 then rest else rest + [(o.asset, Moved(pos, o, price, now))];
    l.(cash := cash, accountCash := Some(cash), buyingPower := l.buyingPower - volume, positions := positions)
  }

  /**
   * `_fill` as written: the order is deleted and the position popped
   * before the check for a short position, which returns without putting
   * the position back.
   */
  function FillAsWritten(l: Ledger, id: nat, o: Order, price: real, now: int): (r: Ledger)
    ensures r.orders == Remove(l.orders, id)
    ensures HeldPosition(l.positions, o.asset).amount + o.amount < 0 ==>
      r.positions == Remove(l.positions, o.asset)
      && r.cash == l.cash && r.accountCash == l.accountCash && r.buyingPower == l.buyingPower
    ensures HeldPosition(l.positions, o.asset).amount + o.amount >= 0 ==>
      r.cash == l.cash - price * (o.amount as real) && r.accountCash == Some(r.cash)
      && r.buyingPower == l.buyingPower - price * (o.amount as real)
  {
    var pos := HeldPosition(l.positions, o.asset);
    var rest := Remove(l.positions, o.asset);
    var orders := Remove(l.orders, id);
    if pos.amount + o.amount < 0 then l.(orders := orders, positions := rest)
    else Settle(l.(orders := orders), rest, pos, o, price, now)
  }

  /**
   * `_fill` as intended: the order is deleted; an order that would make
   * the position negative changes nothing else, so the position and the
   * money stay. Otherwise cash and buying power pay price times amount (a
   * sale brings them in) and the account's cash follows the portfolio's.
   */
  function Fill(l: Ledger, id: nat, o: Order, price: real, now: int): (r: Ledger)
    ensures HeldPosition(l.positions, o.asset).amount + o.amount < 0 ==>
      r.positions == l.positions && r.cash == l.cash && r.accountCash == l.accountCash && r.buyingPower == l.buyingPower
    ensures HeldPosition(l.positions, o.asset).amount + o.amount >= 0 ==>
      r.cash == l.cash - price * (o.amount as real) && r.accountCash == Some(r.cash)
      && r.buyingPower == l.buyingPower - price * (o.amount as real)
  {
    var pos := HeldPosition(l.positions, o.asset);
    var orders := Remove(l.orders, id);
    if pos.amount + o.amount < 0 then l.(orders := orders)
    else Settle(l.(orders := orders), Remove(l.positions, o.asset), pos, o, price, now)
  }

  /** A fill leaves the orders without its own. */
  lemma FillShapeOrders(l: Ledger, id: nat, o: Order, price: real, now: int)
    ensures Fill(l, id, o, price, now).orders == Remove(l.orders, id)
  {
  }

  /** A fill that closes the position leaves the others. */
  lemma FillShapeClosed(l: Ledger, id: nat, o: Order, price: real, now: int)
    requires HeldPosition(l.positions, o.asset).amount + o.amount == 0
    ensures Fill(l, id, o, price, now).positions == Remove(l.positions, o.asset)
  {
  }

  /** A fill that leaves shares moves the position to the end. */
  lemma FillShapeOpen(l: Ledger, id: nat, o: Order, price: real, now: int)
    requires HeldPosition(l.positions, o.asset).amount + o.amount > 0
    ensures Fill(l, id, o, price, now).positions ==
      Remove(l.positions, o.asset) + [(o.asset, Moved(HeldPosition(l.positions, o.asset), o, price, now))]
  {
  }

  /** The arithmetic of closing a position: cash takes the proceeds, the book loses the cost. */
  lemma ClosingArith(cash: real, rcash: real, bvr: real, bvl: real, paid: real, cost: real)
    requires rcash == cash - paid
    requires bvl == bvr + cost
    ensures rcash + bvr == cash + bvl + (-paid - cost)
  {
  }

  /** The arithmetic of a fill that leaves shares: cash pays what the book gains. */
  lemma OpenArith(cash: real, rcash: real, bvr: real, bvl: real, rest: real, v: real, cost: real, moved: real)
    requires rcash == cash - v
    requires bvl == rest + cost
    requires bvr == rest + moved
    requires moved == v + cost
    ensures rcash + bvr == cash + bvl
  {
  }

  /** Both dictionaries have distinct keys. */
  predicate DistinctLedger(l: Ledger)
  {
    DistinctKeys(l.positions) && DistinctKeys(l.orders)
  }

  /** A fill deletes its order and only that one. */
  lemma FillOrders(l: Ledger, id: nat, o: Order, price: real, now: int)
    requires DistinctKeys(l.orders)
    ensures var r := Fill(l, id, o, price, now);
      && DistinctKeys(r.orders)
      && Get(r.orders, id).None?
      && (forall k :: k != id ==> Get(r.orders, k) == Get(l.orders, k))
  {
    var r := Fill(l, id, o, price, now);
    FillShapeOrders(l, id, o, price, now);
    forall k | k != id ensures Get(r.orders, k) == Get(l.orders, k) {
      RemoveGet(l.orders, id, k);
    }
    RemoveGet(l.orders, id, id);
  }

  /**
   * A fill touches no other asset's position. A rejected fill keeps the
   * positions, a closed position is gone, and an open one holds the new
   * amount, sold now, at a cost basis that makes its cost the old cost
   * plus what was paid.
   */
  lemma FillPositions(l: Ledger, id: nat, o: Order, price: real, now: int)
    requires DistinctKeys(l.positions)
    ensures var ps := Fill(l, id, o, price, now).positions;
      var pos := HeldPosition(l.positions, o.asset);
      var n := pos.amount + o.amount;
      && DistinctKeys(ps)
      && (forall a :: a != o.asset ==> Get(ps, a) == Get(l.positions, a))
      && (n < 0 ==> ps == l.positions)
      && (n == 0 ==> Get(ps, o.asset).None?)
      && (n > 0 ==> Get(ps, o.asset).Some? && Get(ps, o.asset).value.amount == n
                    && Get(ps, o.asset).value.lastSaleDate == Some(now)
                    && Get(ps, o.asset).value.lastSalePrice == pos.lastSalePrice
                    && Cost(Get(ps, o.asset).value) == price * (o.amount as real) + Cost(pos))
  {
    var ps := Fill(l, id, o, price, now).positions;
    var pos := HeldPosition(l.positions, o.asset);
    var n := pos.amount + o.amount;
    var rest := Remove(l.positions, o.asset);
    if n == 0 {
      FillShapeClosed(l, id, o, price, now);
    } else if n > 0 {
      FillShapeOpen(l, id, o, price, now);
    }
    forall a | a != o.asset ensures Get(rest, a) == Get(l.positions, a) {
      RemoveGet(l.positions, o.asset, a);
    }
    RemoveGet(l.positions, o.asset, o.asset);
    if n > 0 {
      var p := Moved(pos, o, price, now);
      PutGet(rest, o.asset, p, o.asset);
      forall a | a != o.asset ensures Get(ps, a) == Get(rest, a) {
        PutGet(rest, o.asset, p, a);
      }
      MovedCost(pos, o, price, now);
    }
  }

  /**
   * What a fill does to cash plus the book: a rejected fill and a fill that
   * leaves a position keep the sum; closing a position adds the profit of
   * the sale: the proceeds of the closing order (minus the price times its
   * signed amount) less what the shares cost.
   */
  lemma FillKeepsValue(l: Ledger, id: nat, o: Order, price: real, now: int)
    requires DistinctLedger(l)
    ensures var r := Fill(l, id, o, price, now);
      var pos := HeldPosition(l.positions, o.asset);
      var n := pos.amount + o.amount;
      && (n != 0 ==> r.cash + BookValue(r.positions) == l.cash + BookValue(l.positions))
      && (n == 0 ==> r.cash + BookValue(r.positions) == l.cash + BookValue(l.positions) + (-(price * (o.amount as real)) - Cost(pos)))
  {
    var n := HeldPosition(l.positions, o.asset).amount + o.amount;
    if n > 0 {
      KeepsValueOpen(l, id, o, price, now);
    } else if n == 0 {
      KeepsValueClosed(l, id, o, price, now);
    }
  }

  /** The sum of cash and book after a fill that leaves shares. */
  lemma KeepsValueOpen(l: Ledger, id: nat, o: Order, price: real, now: int)
    requires DistinctLedger(l)
    requires HeldPosition(l.positions, o.asset).amount + o.amount > 0
    ensures var r := Fill(l, id, o, price, now);
      r.cash + BookValue(r.positions) == l.cash + BookValue(l.positions)
  {
    var r := Fill(l, id, o, price, now);
    var pos := HeldPosition(l.positions, o.asset);
    var rest := Remove(l.positions, o.asset);
    var p := Moved(pos, o, price, now);
    FillShapeOpen(l, id, o, price, now);
    BookValueRemove(l.positions, o.asset);
    BookValueSnoc(rest, (o.asset, p));
    MovedCost(pos, o, price, now);
    OpenArith(l.cash, r.cash, BookValue(r.positions), BookValue(l.positions), BookValue(rest),
              price * (o.amount as real), Cost(pos), Cost(p));
  }

  /** The sum of cash and book after a fill that closes the position: the sale's proceeds less the cost. */
  lemma KeepsValueClosed(l: Ledger, id: nat, o: Order, price: real, now: int)
    requires DistinctLedger(l)
    requires HeldPosition(l.positions, o.asset).amount + o.amount == 0
    ensures var r := Fill(l, id, o, price, now);
      var pos := HeldPosition(l.positions, o.asset);
      r.cash + BookValue(r.positions) == l.cash + BookValue(l.positions) + (-(price * (o.amount as real)) - Cost(pos))
  {
    var r := Fill(l, id, o, price, now);
    var pos := HeldPosition(l.positions, o.asset);
    ClosedBook(l, id, o, price, now);
    ClosingArith(l.cash, r.cash, BookValue(r.positions), BookValue(l.positions), price * (o.amount as real), Cost(pos));
  }

  /** Closing a position takes its cost off the book. */
  lemma ClosedBook(l: Ledger, id: nat, o: Order, price: real, now: int)
    requires DistinctKeys(l.positions)
    requires HeldPosition(l.positions, o.asset).amount + o.amount == 0
    ensures BookValue(l.positions) == BookValue(Fill(l, id, o, price, now).positions) + Cost(HeldPosition(l.positions, o.asset))
  {
    FillShapeClosed(l, id, o, price, now);
    BookValueRemove(l.positions, o.asset);
  }

  /**
   * As written, a sale of more than is held deletes the order, keeps the
   * cash, and loses the whole position with its cost.
   */
  lemma FillAsWrittenDropsPosition(l: Ledger, id: nat, o: Order, price: real, now: int)
    requires DistinctLedger(l)
    requires HeldPosition(l.positions, o.asset).amount + o.amount < 0
    ensures var r := FillAsWritten(l, id, o, price, now);
      && Get(r.positions, o.asset).None?
      && r.cash == l.cash
      && BookValue(r.positions) == BookValue(l.positions) - Cost(HeldPosition(l.positions, o.asset))
  {
    RemoveGet(l.positions, o.asset, o.asset);
    BookValueRemove(l.positions, o.asset);
  }

  /** Holding 5 shares at 10 and selling 10: as written the 5 shares vanish; the intended fill keeps them. */
  lemma FillShortSaleExample(a: Asset, price: real, now: int)
    ensures var o := NewOrder(now, a, -10, None, None, 0, 0.0, Some("1"), "");
      var l := Ledger(1000.0, None, 1000.0, [(a, Position(5, 10.0, None, None))], [(1, o)]);
      && FillAsWritten(l, 1, o, price, now).positions == []
      && BookValue(FillAsWritten(l, 1, o, price, now).positions) == 0.0
      && Fill(l, 1, o, price, now).positions == l.positions
      && BookValue(l.positions) == 50.0
  {
  }

  /** The two fills differ only for a refused sale, where the source's also loses the position. */
  lemma FillAsWrittenVersusFill(l: Ledger, id: nat, o: Order, price: real, now: int)
    ensures var n := HeldPosition(l.positions, o.asset).amount + o.amount;
      && (n >= 0 ==> FillAsWritten(l, id, o, price, now) == Fill(l, id, o, price, now))
      && (n < 0 ==> FillAsWritten(l, id, o, price, now) == Fill(l, id, o, price, now).(positions := Remove(l.positions, o.asset)))
  {
  }

  // ---- Processing the orders

  /** Which `_fill` a pass runs: the source's, or the intended one that keeps a refused position. */
  datatype FillRule = AsWritten | Intended

  function FillWith(rule: FillRule, l: Ledger, id: nat, o: Order, price: real, now: int): Ledger
  {
    match rule
    case AsWritten => FillAsWritten(l, id, o, price, now)
    case Intended => Fill(l, id, o, price, now)
  }

  /** Either fill deletes its order and only that one, and keeps both dictionaries' keys distinct. */
  lemma FillWithOrders(rule: FillRule, l: Ledger, id: nat, o: Order, price: real, now: int)
    requires DistinctLedger(l)
    ensures var r := FillWith(rule, l, id, o, price, now);
      && DistinctLedger(r)
      && Get(r.orders, id).None?
      && (forall k :: k != id ==> Get(r.orders, k) == Get(l.orders, k))
  {
    FillOrders(l, id, o, price, now);
    FillPositions(l, id, o, price, now);
    FillAsWrittenVersusFill(l, id, o, price, now);
  }

  /** The bars an order is checked against: its asset's minute bars at `now`, since the order was placed. */
  function OrderBars(o: Order, minuteBars: (int, Asset) -> seq<Bar>, now: int): seq<Bar>
  {
    Since(minuteBars(now, o.asset), o.dt)
  }

  /** An order whose fill check passes on its bars. */
  predicate Fillable(o: Order, minuteBars: (int, Asset) -> seq<Bar>, now: int)
  {
    CheckFill(o, OrderBars(o, minuteBars, now)) == Some(true)
  }

  /** Where a pass over the orders ended: the ledger, and whether an order without bars raised. */
  datatype Pass = Pass(ledger: Ledger, raised: bool)

  /**
   * The loop of `_process_orders` over a snapshot of the orders: an order
   * whose check passes is filled at the last close of its bars by the
   * given rule; an order with no bars raises, and the fills made before it
   * stay.
   */
  function FillPass(rule: FillRule, l: Ledger, snapshot: seq<(nat, Order)>, minuteBars: (int, Asset) -> seq<Bar>, now: int): (p: Pass)
    ensures p.raised <==> exists i :: 0 <= i < |snapshot| && CheckFill(snapshot[i].1, OrderBars(snapshot[i].1, minuteBars, now)).None?
    decreases |snapshot|
  {
    if |snapshot| == 0 then Pass(l, false)
    else
      var id := snapshot[0].0;
      var o := snapshot[0].1;
      var df := OrderBars(o, minuteBars, now);
      var c := CheckFill(o, df);
      assert forall i :: 1 <= i < |snapshot| ==> snapshot[1..][i - 1] == snapshot[i];
      if c.None? then Pass(l, true)
      else if c.value then FillPass(rule, FillWith(rule, l, id, o, df[|df| - 1].close, now), snapshot[1..], minuteBars, now)
      else FillPass(rule, l, snapshot[1..], minuteBars, now)
  }

  /** A pass, by either fill, keeps both dictionaries' keys distinct and only deletes orders. */
  lemma {:induction false} FillPassKeeps(rule: FillRule, l: Ledger, snapshot: seq<(nat, Order)>, minuteBars: (int, Asset) -> seq<Bar>, now: int)
    requires DistinctLedger(l)
    ensures var r := FillPass(rule, l, snapshot, minuteBars, now);
      && DistinctLedger(r.ledger)
      && (forall k :: Get(r.ledger.orders, k).None? || Get(r.ledger.orders, k) == Get(l.orders, k))
    decreases |snapshot|
  {
    if |snapshot| > 0 {
      var id := snapshot[0].0;
      var o := snapshot[0].1;
      var df := OrderBars(o, minuteBars, now);
      var c := CheckFill(o, df);
      if c.Some? {
        if c.value {
          var l2 := FillWith(rule, l, id, o, df[|df| - 1].close, now);
          FillWithOrders(rule, l, id, o, df[|df| - 1].close, now);
          FillPassKeeps(rule, l2, snapshot[1..], minuteBars, now);
        } else {
          FillPassKeeps(rule, l, snapshot[1..], minuteBars, now);
        }
      }
    }
  }

  /**
   * A pass that completes, by either fill, deletes exactly the snapshot's
   * orders that pass their check and keeps every other order.
   */
  lemma {:induction false} FillPassDeletes(rule: FillRule, l: Ledger, snapshot: seq<(nat, Order)>, minuteBars: (int, Asset) -> seq<Bar>, now: int)
    requires DistinctLedger(l) && DistinctKeys(snapshot)
    requires !FillPass(rule, l, snapshot, minuteBars, now).raised
    ensures var r := FillPass(rule, l, snapshot, minuteBars, now);
      forall k :: Get(r.ledger.orders, k) ==
        (if Get(snapshot, k).Some? && Fillable(Get(snapshot, k).value, minuteBars, now) then None else Get(l.orders, k))
    decreases |snapshot|
  {
    if |snapshot| > 0 {
      var id := snapshot[0].0;
      var o := snapshot[0].1;
      var df := OrderBars(o, minuteBars, now);
      DistinctTail(snapshot);
      var c := CheckFill(o, df);
      if c.value {
        var l2 := FillWith(rule, l, id, o, df[|df| - 1].close, now);
        FillWithOrders(rule, l, id, o, df[|df| - 1].close, now);
        FillPassDeletes(rule, l2, snapshot[1..], minuteBars, now);
      } else {
        FillPassDeletes(rule, l, snapshot[1..], minuteBars, now);
      }
    }
  }

  /** One step of a pass: the first snapshot order either raises or leads to the pass over the rest. */
  lemma FillPassStep(rule: FillRule, l: Ledger, snapshot: seq<(nat, Order)>, minuteBars: (int, Asset) -> seq<Bar>, now: int)
    requires |snapshot| > 0
    ensures var o := snapshot[0].1;
      var df := OrderBars(o, minuteBars, now);
      var c := CheckFill(o, df);
      FillPass(rule, l, snapshot, minuteBars, now) ==
        if c.None? then Pass(l, true)
        else if c.value then FillPass(rule, FillWith(rule, l, snapshot[0].0, o, df[|df| - 1].close, now), snapshot[1..], minuteBars, now)
        else FillPass(rule, l, snapshot[1..], minuteBars, now)
  {
  }

  /** The loop of `_process_orders`, over a snapshot of the orders taken before it starts. */
  method RunPass(rule: FillRule, l: Ledger, snapshot: seq<(nat, Order)>, minuteBars: (int, Asset) -> seq<Bar>, now: int)
    returns (r: Ledger, raised: bool)
    ensures Pass(r, raised) == FillPass(rule, l, snapshot, minuteBars, now)
  {
    r := l;
    var i := 0;
    while i < |snapshot|
      invariant 0 <= i <= |snapshot|
      invariant FillPass(rule, l, snapshot, minuteBars, now) == FillPass(rule, r, snapshot[i..], minuteBars, now)
    {
      var id := snapshot[i].0;
      var o := snapshot[i].1;
      assert snapshot[i..][1..] == snapshot[i + 1..];
      FillPassStep(rule, r, snapshot[i..], minuteBars, now);
      var df := OrderBars(o, minuteBars, now);
      var c := CheckFill(o, df);
      if c.None? {
        return r, true;
      }
      if c.value {
        r := FillWith(rule, r, id, o, df[|df| - 1].close, now);
      }
      i := i + 1;
    }
    assert snapshot[i..] == [];
    raised := false;
  }

  /**
   * The state of the backend: the ledger, the last order number, the time
   * of the last complete pass, and the portfolio's positions value and
   * total value, unset until the first complete pass.
   */
  datatype Smoke = Smoke(
    ledger: Ledger,
    orderSeq: nat,
    lastProcessTime: Option<int>,
    positionsValue: Option<real>,
    portfolioValue: Option<real>)

  /** Both dictionaries have distinct keys and every order number is one already handed out. */
  predicate WellFormed(s: Smoke)
  {
    && DistinctLedger(s.ledger)
    && forall i :: 0 <= i < |s.ledger.orders| ==> 0 < s.ledger.orders[i].0 <= s.orderSeq
  }

  /**
   * `_process_orders` at `now`, with whether it raised. At a time already
   * processed nothing happens. Otherwise the orders are passed over; a
   * complete pass then sets the positions value to the book value, the
   * portfolio value to cash plus that, and remembers the time. A pass that
   * raised keeps its fills and sets nothing else. The order counter never
   * changes.
   */
  function AfterProcess(rule: FillRule, s: Smoke, minuteBars: (int, Asset) -> seq<Bar>, now: int): (r: (Smoke, bool))
    ensures s.lastProcessTime == Some(now) ==> r == (s, false)
    ensures r.0.orderSeq == s.orderSeq
    ensures s.lastProcessTime != Some(now) ==>
      var p := FillPass(rule, s.ledger, s.ledger.orders, minuteBars, now);
      r.0.ledger == p.ledger && r.1 == p.raised
    ensures !r.1 ==> r.0.lastProcessTime == Some(now)
    ensures !r.1 && s.lastProcessTime != Some(now) ==>
      r.0.positionsValue == Some(BookValue(r.0.ledger.positions)) &&
      r.0.portfolioValue == Some(r.0.ledger.cash + BookValue(r.0.ledger.positions))
    ensures r.1 ==> r.0.lastProcessTime == s.lastProcessTime && r.0.positionsValue == s.positionsValue
                    && r.0.portfolioValue == s.portfolioValue
  {
    if s.lastProcessTime == Some(now) then (s, false)
    else
      var p := FillPass(rule, s.ledger, s.ledger.orders, minuteBars, now);
      if p.raised then (s.(ledger := p.ledger), true)
      else
        var posval := BookValue(p.ledger.positions);
        (s.(ledger := p.ledger, positionsValue := Some(posval), portfolioValue := Some(p.ledger.cash + posval),
            lastProcessTime := Some(now)), false)
  }

  /** Processing twice at the same time is processing once. */
  lemma AfterProcessOnce(rule: FillRule, s: Smoke, minuteBars: (int, Asset) -> seq<Bar>, now: int)
    requires !AfterProcess(rule, s, minuteBars, now).1
    ensures var r := AfterProcess(rule, s, minuteBars, now).0;
      AfterProcess(rule, r, minuteBars, now) == (r, false)
  {
  }

  /**
   * Processing keeps the state well formed, and a complete pass leaves
   * exactly the orders whose check failed.
   */
  lemma AfterProcessOrders(rule: FillRule, s: Smoke, minuteBars: (int, Asset) -> seq<Bar>, now: int)
    requires WellFormed(s)
    ensures var r := AfterProcess(rule, s, minuteBars, now);
      && WellFormed(r.0)
      && (!r.1 && s.lastProcessTime != Some(now) ==>
            forall k :: Get(r.0.ledger.orders, k) ==
              (if Get(s.ledger.orders, k).Some? && Fillable(Get(s.ledger.orders, k).value, minuteBars, now) then None
               else Get(s.ledger.orders, k)))
  {
    var r := AfterProcess(rule, s, minuteBars, now);
    if s.lastProcessTime != Some(now) {
      FillPassKeeps(rule, s.ledger, s.ledger.orders, minuteBars, now);
      if !r.1 {
        FillPassDeletes(rule, s.ledger, s.ledger.orders, minuteBars, now);
      }
      var orders := r.0.ledger.orders;
      forall i | 0 <= i < |orders| ensures 0 < orders[i].0 <= s.orderSeq {
        GetEntry(orders, i);
        var j :| 0 <= j < |s.ledger.orders| && s.ledger.orders[j] == (orders[i].0, orders[i].1);
      }
    }
  }

  // ---- Orders

  /**
   * `order`: a zero amount places nothing and uses no number. Otherwise the
   * next number becomes the order's id and key, and the order is placed
   * now, for the amount, at the style's prices with a zero price dropped.
   * Nothing else changes.
   */
  function AfterOrder(s: Smoke, asset: Asset, amount: int, style: ExecutionStyle, now: int): (r: (Smoke, Option<Order>))
    ensures amount == 0 ==> r == (s, None)
    ensures amount != 0 ==> r.0.orderSeq == s.orderSeq + 1 && r.1.Some?
    ensures amount != 0 ==> var o := r.1.value;
      && o.id == NatToString(s.orderSeq + 1) && o.asset == asset && o.amount == amount && o.dt == now
      && o.limit == Brokers.NonZero(LimitOf(style)) && o.stop == Brokers.NonZero(StopOf(style))
      && o.filled == 0 && o.rawStatus == Open
    ensures r.0.ledger.(orders := s.ledger.orders) == s.ledger
    ensures r.0.lastProcessTime == s.lastProcessTime && r.0.positionsValue == s.positionsValue
            && r.0.portfolioValue == s.portfolioValue
  {
    if amount == 0 then (s, None)
    else
      var id := s.orderSeq + 1;
      var o := NewOrder(now, asset, amount, Brokers.NonZero(StopOf(style)), Brokers.NonZero(LimitOf(style)), 0, 0.0,
                        Some(NatToString(id)), "");
      var orders := Put(s.ledger.orders, id, o);
      (s.(ledger := s.ledger.(orders := orders), orderSeq := id), Some(o))
  }

  /** The new order goes last, under a number no order had, and the state stays well formed. */
  lemma AfterOrderAppends(s: Smoke, asset: Asset, amount: int, style: ExecutionStyle, now: int)
    requires WellFormed(s) && amount != 0
    ensures var r := AfterOrder(s, asset, amount, style, now);
      && WellFormed(r.0)
      && Get(s.ledger.orders, s.orderSeq + 1).None?
      && r.0.ledger.orders == s.ledger.orders + [(s.orderSeq + 1, r.1.value)]
      && Get(r.0.ledger.orders, s.orderSeq + 1) == r.1
  {
    var r := AfterOrder(s, asset, amount, style, now);
    PutGet(s.ledger.orders, s.orderSeq + 1, r.1.value, s.orderSeq + 1);
  }

  /** Cancelling keeps the order numbers among those handed out. */
  lemma AfterCancelWellFormed(s: Smoke, id: nat)
    requires WellFormed(s)
    ensures WellFormed(s.(ledger := s.ledger.(orders := Discard(s.ledger.orders, id))))
  {
    var r := Discard(s.ledger.orders, id);
    forall i | 0 <= i < |r| ensures 0 < r[i].0 <= s.orderSeq {
      if Get(s.ledger.orders, id).Some? {
        assert r[i] in s.ledger.orders;
      }
    }
  }

  // ---- The backend

  /**
   * The smoke backend. `minuteBars(now, asset)` stands for the fake data
   * backend's minute bars of the asset at time `now`.
   */
  class SmokeBackend {
    const minuteBars: (int, Asset) -> seq<Bar>
    var cash: real
    var accountCash: Option<real>
    var buyingPower: real
    var positions: seq<(Asset, Position)>
    var orders: seq<(nat, Order)>
    var orderSeq: nat
    var lastProcessTime: Option<int>
    var positionsValue: Option<real>
    var portfolioValue: Option<real>

    /** The backend's state as a value. */
    function State(): Smoke
      reads this
    {
      Smoke(Ledger(cash, accountCash, buyingPower, positions, orders), orderSeq, lastProcessTime, positionsValue, portfolioValue)
    }

    predicate Valid()
      reads this
    {
      WellFormed(State())
    }

    /** `Backend(cash)`: the cash is both the portfolio's cash and the buying power; nothing is held or open. */
    constructor(initialCash: real, minuteBars: (int, Asset) -> seq<Bar>)
      ensures State() == Smoke(Ledger(initialCash, None, initialCash, [], []), 0, None, None, None)
      ensures this.minuteBars == minuteBars
      ensures Valid()
    {
      this.minuteBars := minuteBars;
      cash := initialCash;
      accountCash := None;
      buyingPower := initialCash;
      positions := [];
      orders := [];
      orderSeq := 0;
      lastProcessTime := None;
      positionsValue := None;
      portfolioValue := None;
    }

    /** Sets every field from a state value. */
    method SetState(s: Smoke)
      modifies this
      ensures State() == s
    {
      cash, accountCash, buyingPower := s.ledger.cash, s.ledger.accountCash, s.ledger.buyingPower;
      positions, orders := s.ledger.positions, s.ledger.orders;
      orderSeq, lastProcessTime := s.orderSeq, s.lastProcessTime;
      positionsValue, portfolioValue := s.positionsValue, s.portfolioValue;
    }

    /** `_process_orders` at `now`; `raised` says the pass met an order without bars. */
    method ProcessOrders(now: int) returns (raised: bool)
      requires Valid()
      modifies this
      ensures (State(), raised) == AfterProcess(AsWritten, old(State()), minuteBars, now)
      ensures Valid()
    {
      AfterProcessOrders(AsWritten, State(), minuteBars, now);
      if lastProcessTime == Some(now) {
        return false;
      }
      var s := State();
      var l;
      l, raised := RunPass(AsWritten, s.ledger, orders, minuteBars, now);
      if raised {
        SetState(s.(ledger := l));
      } else {
        var posval := BookValue(l.positions);
        SetState(s.(ledger := l, positionsValue := Some(posval), portfolioValue := Some(l.cash + posval),
                    lastProcessTime := Some(now)));
      }
    }

    /** The `positions` property: the positions after processing, or `None` when processing raised. */
    method Positions(now: int) returns (r: Option<seq<(Asset, Position)>>)
      requires Valid()
      modifies this
      ensures var (s, raised) := AfterProcess(AsWritten, old(State()), minuteBars, now);
        State() == s && r == (if raised then None else Some(s.ledger.positions))
      ensures Valid()
    {
      var raised := ProcessOrders(now);
      r := if raised then None else Some(positions);
    }

    /** The `orders` property: the open orders after processing, or `None` when processing raised. */
    method Orders(now: int) returns (r: Option<seq<(nat, Order)>>)
      requires Valid()
      modifies this
      ensures var (s, raised) := AfterProcess(AsWritten, old(State()), minuteBars, now);
        State() == s && r == (if raised then None else Some(s.ledger.orders))
      ensures Valid()
    {
      var raised := ProcessOrders(now);
      r := if raised then None else Some(orders);
    }

    /** `order`, placed at `now`, the time the fake data reports as last traded. */
    method Order(asset: Asset, amount: int, style: ExecutionStyle, now: int) returns (r: Option<Orders.Order>)
      requires Valid()
      modifies this
      ensures (State(), r) == AfterOrder(old(State()), asset, amount, style, now)
      ensures Valid()
    {
      if amount == 0 {
        return None;
      }
      AfterOrderAppends(State(), asset, amount, style, now);
      var placed := AfterOrder(State(), asset, amount, style, now);
      SetState(placed.0);
      r := placed.1;
    }

    /** `cancel_order` */
    method CancelOrder(id: nat)
      requires Valid()
      modifies this
      ensures State() == old(State()).(ledger := old(State()).ledger.(orders := Discard(old(orders), id)))
      ensures Valid()
    {
      AfterCancelWellFormed(State(), id);
      orders := Discard(orders, id);
    }
  }
}
