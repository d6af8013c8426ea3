/**
 * The helpers of the mean-reversion example algorithm: the stop price and
 * the position size from the average true range, and the tracker that
 * counts, per held symbol, the days a position has been open. The tracker
 * is a dictionary from symbol to its entry, whose fields are strings.
 */
module Reversion {
  import opened Wrappers
  import opened Strings
  import opened OrderedDicts

  // ---- Sizing

  /** `get_stop_price`: two and a half ATRs below the price, never below zero. */
  function StopPrice(price: real, atr: real): (r: real)
    ensures r >= 0.0 && r >= price - 2.5 * atr
    ensures r == price - 2.5 * atr || r == 0.0
  {
    var p := price - 2.5 * atr;
    if p < 0.0 then 0.0 else p
  }

  /** The unit test's two stops. */
  lemma StopPriceTest()
    ensures StopPrice(10.0, 2.5) == 3.75
    ensures StopPrice(2.0, 2.5) == 0.0
  {
  }

  /** `is_expired`: a position expires after four days. */
  predicate IsExpired(days: int): (r: bool)
    ensures r <==> days >= 5
  {
    days > 4
  }

  /** The unit test: six days is expired. */
  lemma IsExpiredTest()
    ensures IsExpired(6) && !IsExpired(4) && IsExpired(5)
  {
  }

  /** `math.floor` */
  function Floor(x: real): (n: int)
    ensures n as real <= x < n as real + 1.0
  {
    x.Floor
  }

  /** The cost of a whole number of shares. */
  function Times(shares: int, price: real): real
  {
    shares as real * price
  }

  /** Why `get_cost` raises. */
  datatype SizingError = ZeroDivision

  /**
   * `get_cost`: the cost of as many whole shares as risk 2% of the total
   * value down to the stop, or, when that would cost more than 10% of the
   * value, of as many whole shares as 10% buys. A zero risk per share, or a
   * zero price when the cap applies, divides by zero.
   */
  function GetCost(atr: real, totalValue: real, price: real): (r: Result<real, SizingError>)
    ensures price > 0.0 && atr > 0.0 ==> r.Ok?
    ensures r.Ok? ==> exists shares: int :: r.value == Times(shares, price)
    ensures r.Ok? && price > 0.0 ==> r.value <= totalValue * 0.1
  {
    var risk := price - StopPrice(price, atr);
    assert price > 0.0 && atr > 0.0 ==> risk > 0.0;
    if risk == 0.0 then Err(ZeroDivision)
    else
      var shares := Floor(totalValue * 0.02 / risk);
      var cost := Times(shares, price);
      if cost > totalValue * 0.1 then
        if price == 0.0 then Err(ZeroDivision)
        else
          var capped := Floor(totalValue * 0.1 / price);
          assert price > 0.0 ==> Times(capped, price) <= totalValue * 0.1 by {
            if price > 0.0 {
              CappedWithin(totalValue * 0.1, price, capped);
            }
          }
          Ok(Times(capped, price))
      else Ok(Times(shares, price))
  }

  /** Whole shares bought with a budget cost at most the budget, and one more would exceed it. */
  lemma CappedWithin(budget: real, price: real, n: int)
    requires price > 0.0 && n == Floor(budget / price)
    ensures Times(n, price) <= budget < Times(n + 1, price)
  {
    var x := budget / price;
    assert x * price == budget;
    BelowQuotient(budget, price, n as real, x);
    AboveQuotient(budget, price, (n + 1) as real, x);
  }

  /** A count at most the quotient costs at most the budget. */
  lemma BelowQuotient(budget: real, price: real, n: real, x: real)
    requires price > 0.0 && x * price == budget && n <= x
    ensures n * price <= budget
  {
    MulMonotone(n, x, price);
  }

  /** A count above the quotient costs more than the budget. */
  lemma AboveQuotient(budget: real, price: real, m: real, x: real)
    requires price > 0.0 && x * price == budget && x < m
    ensures budget < m * price
  {
    MulMonotone(x, m, price);
  }

  /** Multiplying by a positive number keeps the order. */
  lemma MulMonotone(x: real, y: real, p: real)
    requires p > 0.0 && x <= y
    ensures x * p <= y * p
    ensures x < y ==> x * p < y * p
  {
  }

  /** When the risk sizing is capped, the cost is the most whole shares that fit in 10% of the value. */
  lemma GetCostCapped(atr: real, totalValue: real, price: real)
    requires price > 0.0 && atr > 0.0
    requires Times(Floor(totalValue * 0.02 / (price - StopPrice(price, atr))), price) > totalValue * 0.1
    ensures GetCost(atr, totalValue, price) == Ok(Times(Floor(totalValue * 0.1 / price), price))
    ensures GetCost(atr, totalValue, price).value <= totalValue * 0.1 < Times(Floor(totalValue * 0.1 / price) + 1, price)
  {
    assert price - StopPrice(price, atr) > 0.0;
    CappedWithin(totalValue * 0.1, price, Floor(totalValue * 0.1 / price));
  }

  /** The unit test: 16 shares at 60, risking 200 at 12.5 a share. */
  lemma GetCostTest()
    ensures GetCost(5.0, 10000.0, 60.0) == Ok(960.0)
  {
    assert StopPrice(60.0, 5.0) == 47.5;
    assert 10000.0 * 0.02 / 12.5 == 16.0;
    assert Floor(16.0) == 16;
  }

  // ---- The tracker

  /**
   * A tracker entry: the days held and the ATR, both as strings. The ATR is
   * absent from an entry whose ATR lookup raised after its days were written.
   */
  datatype Entry = Entry(days: string, atr: Option<string>)

  type Tracker = seq<(string, Entry)>

  /** The tracker dictionary object, which the helpers update in place. */
  class TrackerDict {
    var entries: Tracker

    constructor(entries: Tracker)
      ensures this.entries == entries
    {
      this.entries := entries;
    }
  }

  /** A non-empty string of decimal digits. */
  predicate IsDigits(s: string)
  {
    |s| > 0 && forall k :: 0 <= k < |s| ==> '0' <= s[k] <= '9'
  }

  /** `int(s)` on an optional sign followed by decimal digits; `None` (a `ValueError`) otherwise. */
  function ParseInt(s: string): (r: Option<int>)
    ensures |s| == 0 ==> r.None?
  {
    if |s| > 0 && s[0] == '-' && IsDigits(s[1..]) then Some(-(DigitsValue(s[1..]) as int))
    else if |s| > 0 && s[0] == '+' && IsDigits(s[1..]) then Some(DigitsValue(s[1..]))
    else if IsDigits(s) then Some(DigitsValue(s))
    else None
  }

  /** Digits read as their value. */
  lemma ParseDigits(s: string)
    requires IsDigits(s)
    ensures ParseInt(s) == Some(DigitsValue(s))
    ensures ParseInt("-" + s) == Some(-(DigitsValue(s) as int))
  {
    assert ("-" + s)[1..] == s;
  }

  /** `int(str(n)) == n` */
  lemma ParseIntOfString(n: int)
    ensures ParseInt(IntToString(n)) == Some(n)
  {
    var m: nat := if n < 0 then -n else n;
    var digits := NatToString(m);
    NatToStringValue(m);
    assert IsDigits(digits);
    ParseDigits(digits);
  }

  /** An entry one day older: its days read, plus one, written back; `None` when the days do not read. */
  function OneDayOlder(e: Entry): (r: Option<Entry>)
    ensures r.None? <==> ParseInt(e.days).None?
    ensures r.Some? ==> r.value.atr == e.atr && ParseInt(r.value.days) == Some(ParseInt(e.days).value + 1)
  {
    match ParseInt(e.days)
    case None => None
    case Some(d) =>
      ParseIntOfString(d + 1);
      Some(Entry(IntToString(d + 1), e.atr))
  }

  /** The first entry whose days do not read, or the tracker's length when all read. */
  function FirstUnreadable(t: Tracker): (k: nat)
    ensures k <= |t|
    ensures forall j :: 0 <= j < k ==> ParseInt(t[j].1.days).Some?
    ensures k < |t| ==> ParseInt(t[k].1.days).None?
  {
    if |t| == 0 then 0
    else if ParseInt(t[0].1.days).None? then 0
    else
      var k := FirstUnreadable(t[1..]);
      assert forall j :: 1 <= j < |t| ==> t[j] == t[1..][j - 1];
      1 + k
  }

  /**
   * `increment_day`, entry by entry in the tracker's order: each entry is
   * made one day older in place; an entry whose days do not read raises
   * and leaves it and the later entries as they were. The flag says
   * whether all entries were updated.
   */
  function IncrementFrom(t: Tracker): (r: (Tracker, bool))
    ensures |r.0| == |t|
    ensures Keys(r.0) == Keys(t)
    ensures forall i :: 0 <= i < |t| ==> r.0[i].1.atr == t[i].1.atr
    ensures r.1 <==> forall i :: 0 <= i < |t| ==> ParseInt(t[i].1.days).Some?
    ensures r.1 ==> forall i :: 0 <= i < |t| ==> Some(r.0[i].1) == OneDayOlder(t[i].1)
    ensures !r.1 ==> exists k :: (0 <= k < |t| && ParseInt(t[k].1.days).None? &&
      (forall i :: 0 <= i < k ==> Some(r.0[i].1) == OneDayOlder(t[i].1)) &&
      (forall i :: k <= i < |t| ==> r.0[i] == t[i]))
  {
    var k := FirstUnreadable(t);
    (Aged(t, k), k == |t|)
  }

  /** The tracker with its first `k` entries made one day older. */
  function Aged(t: Tracker, k: nat): (r: Tracker)
    requires k <= |t| && forall j :: 0 <= j < k ==> ParseInt(t[j].1.days).Some?
    ensures |r| == |t|
  {
    seq(|t|, i requires 0 <= i < |t| => if i < k then (t[i].0, OneDayOlder(t[i].1).value) else t[i])
  }

  /** Ageing one more entry. */
  lemma AgedStep(t: Tracker, k: nat)
    requires k < |t| && forall j :: 0 <= j <= k ==> ParseInt(t[j].1.days).Some?
    ensures Aged(t, k)[k := (t[k].0, OneDayOlder(t[k].1).value)] == Aged(t, k + 1)
  {
    var a, b := Aged(t, k)[k := (t[k].0, OneDayOlder(t[k].1).value)], Aged(t, k + 1);
    assert forall i :: 0 <= i < |t| ==> a[i] == b[i];
  }

  /** The loop of `increment_day`, updating the caller's dictionary in place. */
  method IncrementDay(tracker: TrackerDict) returns (ok: bool)
    modifies tracker
    ensures (tracker.entries, ok) == IncrementFrom(old(tracker.entries))
  {
    var t := tracker.entries;
    ok := true;
    var i := 0;
    assert tracker.entries == Aged(t, 0);
    while i < |t|
      invariant 0 <= i <= |t|
      invariant forall j :: 0 <= j < i ==> ParseInt(t[j].1.days).Some?
      invariant tracker.entries == Aged(t, i)
    {
      var e := OneDayOlder(t[i].1);
      if e.None? {
        ok := false;
        assert FirstUnreadable(t) == i;
        return;
      }
      AgedStep(t, i);
      tracker.entries := tracker.entries[i := (t[i].0, e.value)];
      i := i + 1;
    }
    assert FirstUnreadable(t) == |t|;
  }

  /** The unit test: AAPL goes from one day to two, FB from two to three; the ATRs stay. */
  lemma IncrementDayTest()
    ensures IncrementFrom([("AAPL", Entry("1", Some("3"))), ("FB", Entry("2", Some("4")))]) ==
            ([("AAPL", Entry("2", Some("3"))), ("FB", Entry("3", Some("4")))], true)
  {
    var t := [("AAPL", Entry("1", Some("3"))), ("FB", Entry("2", Some("4")))];
    DaysRead(1);
    DaysRead(2);
    DaysRead(3);
    assert DigitChar(1) == '1' && DigitChar(2) == '2' && DigitChar(3) == '3';
    assert OneDayOlder(Entry("1", Some("3"))) == Some(Entry("2", Some("3")));
    assert OneDayOlder(Entry("2", Some("4"))) == Some(Entry("3", Some("4")));
    assert FirstUnreadable(t) == 2;
    var r := Aged(t, 2);
    assert r[0] == ("AAPL", Entry("2", Some("3"))) && r[1] == ("FB", Entry("3", Some("4")));
    assert r == [("AAPL", Entry("2", Some("3"))), ("FB", Entry("3", Some("4")))];
    assert IncrementFrom(t) == (r, true);
  }

  /** A one-digit day count reads as its digit and is written back the same way. */
  lemma DaysRead(d: nat)
    requires d < 10
    ensures ParseInt([DigitChar(d)]) == Some(d) && IntToString(d) == [DigitChar(d)]
  {
    var s := [DigitChar(d)];
    assert DigitChar(d) as int - '0' as int == d;
    assert IsDigits(s) && s[..0] == "";
    assert DigitsValue(s) == 10 * DigitsValue("") + (DigitChar(d) as int - '0' as int);
    assert s[0] != '-' && s[0] != '+';
  }

  /**
   * The entry `add_to_tracker` writes for a new symbol: zero days, then the
   * string of its ATR; when `atrs` has no ATR for it, the lookup raises
   * after the days were written and the entry is left without one.
   */
  function FreshEntry(symbol: string, atrs: seq<(string, real)>, str: real -> string): (e: Entry)
    ensures e.days == "0"
    ensures e.atr.None? <==> Get(atrs, symbol).None?
    ensures e.atr.Some? ==> e.atr.value == str(Get(atrs, symbol).value)
  {
    match Get(atrs, symbol)
    case None => Entry("0", None)
    case Some(a) => Entry("0", Some(str(a)))
  }

  /**
   * One step of `add_to_tracker`: a symbol not tracked yet is appended with
   * its fresh entry; the flag is `false` when its ATR was missing, which
   * raises with the entry already in the tracker. A tracked symbol is left
   * alone.
   */
  function AddOne(t: Tracker, symbol: string, atrs: seq<(string, real)>, str: real -> string): (r: (Tracker, bool))
    requires DistinctKeys(t)
    ensures Get(t, symbol).Some? ==> r == (t, true)
    ensures Get(t, symbol).None? && Get(atrs, symbol).None? ==>
      r == (t + [(symbol, Entry("0", None))], false)
    ensures Get(t, symbol).None? && Get(atrs, symbol).Some? ==>
      r == (t + [(symbol, Entry("0", Some(str(Get(atrs, symbol).value))))], true)
  {
    if Get(t, symbol).Some? then (t, true)
    else (t + [(symbol, FreshEntry(symbol, atrs, str))], Get(atrs, symbol).Some?)
  }

  /** Adding one symbol keeps the keys distinct, and answers for it with its fresh entry when it was not tracked. */
  lemma AddOneGet(t: Tracker, symbol: string, atrs: seq<(string, real)>, str: real -> string)
    requires DistinctKeys(t)
    ensures DistinctKeys(AddOne(t, symbol, atrs, str).0)
    ensures forall k :: (Get(AddOne(t, symbol, atrs, str).0, k) ==
      if k == symbol && Get(t, symbol).None? then Some(FreshEntry(symbol, atrs, str)) else Get(t, k))
  {
    if Get(t, symbol).None? {
      var e := FreshEntry(symbol, atrs, str);
      forall k ensures Get(t + [(symbol, e)], k) == (if k == symbol then Some(e) else Get(t, k)) {
        PutGet(t, symbol, e, k);
      }
    }
  }

  /**
   * `add_to_tracker` over the held symbols in order; the flag is `false`
   * when a symbol's ATR is missing, with the symbols before it added and it
   * left with no ATR.
   */
  function AddAll(t: Tracker, held: seq<string>, atrs: seq<(string, real)>, str: real -> string): (r: (Tracker, bool))
    requires DistinctKeys(t)
    ensures DistinctKeys(r.0)
    ensures |t| <= |r.0| <= |t| + |held| && r.0[..|t|] == t
    decreases |held|
  {
    if |held| == 0 then (t, true)
    else
      AddOneGet(t, held[0], atrs, str);
      var (t', ok) := AddOne(t, held[0], atrs, str);
      if !ok then (t', false)
      else
        var r := AddAll(t', held[1..], atrs, str);
        assert r.0[..|t|] == r.0[..|t'|][..|t|];
        r
  }

  /**
   * `add_to_tracker` touches no tracked entry and adds only held symbols,
   * each with its fresh entry; when it completes, every held symbol is
   * tracked and each added one has its ATR; when it raises, some held
   * symbol is left tracked with zero days and no ATR, whose later ATR
   * lookup in `sell` raises.
   */
  lemma {:induction false} AddAllEffect(t: Tracker, held: seq<string>, atrs: seq<(string, real)>, str: real -> string)
    requires DistinctKeys(t)
    ensures var (r, ok) := AddAll(t, held, atrs, str);
      && (forall k :: Get(t, k).Some? ==> Get(r, k) == Get(t, k))
      && (forall k :: Get(t, k).None? && Get(r, k).Some? ==> k in held && Get(r, k) == Some(FreshEntry(k, atrs, str)))
      && (ok ==> forall k :: k in held ==> Get(r, k).Some? && (Get(t, k).None? ==> Get(atrs, k).Some?))
      && (!ok ==> exists k :: k in held && Get(t, k).None? && Get(atrs, k).None? && Get(r, k) == Some(Entry("0", None)))
    decreases |held|
  {
    if |held| > 0 {
      var h := held[0];
      AddOneGet(t, h, atrs, str);
      var (t', ok) := AddOne(t, h, atrs, str);
      assert forall k :: k in held <==> k == h || k in held[1..] by {
        assert held == [h] + held[1..];
      }
      if !ok {
        assert Get(t', h) == Some(Entry("0", None));
      } else {
        AddAllEffect(t', held[1..], atrs, str);
      }
    }
  }

  /** The loop of `add_to_tracker`, updating the caller's dictionary in place. */
  method AddToTracker(tracker: TrackerDict, held: seq<string>, atrs: seq<(string, real)>, str: real -> string)
    returns (ok: bool)
    requires DistinctKeys(tracker.entries)
    modifies tracker
    ensures (tracker.entries, ok) == AddAll(old(tracker.entries), held, atrs, str)
  {
    ghost var t := tracker.entries;
    ok := true;
    var i := 0;
    while i < |held|
      invariant 0 <= i <= |held|
      invariant DistinctKeys(tracker.entries)
      invariant AddAll(t, held, atrs, str) == AddAll(tracker.entries, held[i..], atrs, str)
    {
      assert held[i..][1..] == held[i + 1..];
      AddOneGet(tracker.entries, held[i], atrs, str);
      var one := AddOne(tracker.entries, held[i], atrs, str);
      tracker.entries := one.0;
      if !one.1 {
        ok := false;
        return;
      }
      i := i + 1;
    }
  }

  /**
   * The unit tests: FB is added with zero days and ATR 3 to an empty
   * tracker, and left alone when tracked. Without an ATR for FB the empty
   * tracker is left holding FB with zero days and no ATR.
   */
  lemma AddToTrackerTest(str: real -> string)
    requires str(3.0) == "3"
    ensures AddAll([], ["FB"], [("FB", 3.0)], str) == ([("FB", Entry("0", Some("3")))], true)
    ensures AddAll([("FB", Entry("2", Some("4")))], ["FB"], [("FB", 3.0)], str) == ([("FB", Entry("2", Some("4")))], true)
    ensures AddAll([], ["FB"], [], str) == ([("FB", Entry("0", None))], false)
  {
    var held := ["FB"];
    var atrs := [("FB", 3.0)];
    assert held[0] == "FB" && held[1..] == [];
    assert Get(atrs, "FB") == Some(3.0);
    var empty: Tracker := [];
    var added: Tracker := [("FB", Entry("0", Some("3")))];
    assert Get(empty, "FB").None?;
    assert empty + [("FB", Entry("0", Some(str(3.0))))] == added;
    assert AddOne(empty, "FB", atrs, str) == (added, true);
    assert AddAll(added, [], atrs, str) == (added, true);
    var tracked: Tracker := [("FB", Entry("2", Some("4")))];
    assert Get(tracked, "FB").Some?;
    assert AddOne(tracked, "FB", atrs, str) == (tracked, true);
    assert AddAll(tracked, [], atrs, str) == (tracked, true);
    var none: seq<(string, real)> := [];
    assert Get(none, "FB").None?;
    assert FreshEntry("FB", none, str) == Entry("0", None);
    assert empty + [("FB", Entry("0", None))] == [("FB", Entry("0", None))];
    assert AddOne(empty, "FB", none, str) == ([("FB", Entry("0", None))], false);
  }

  /** `clean_tracker`: a new tracker keeping, in order, the entries of the held symbols. */
  function Kept(t: Tracker, held: seq<string>): (r: Tracker)
    ensures forall i :: 0 <= i < |r| ==> r[i] in t && r[i].0 in held
    ensures forall i :: 0 <= i < |t| && t[i].0 in held ==> t[i] in r
  {
    if |t| == 0 then []
    else
      var rest := Kept(t[1..], held);
      assert forall i :: 1 <= i < |t| ==> t[i] == t[1..][i - 1];
      if t[0].0 in held then [t[0]] + rest else rest
  }

  /** The kept tracker answers for exactly the held symbols, as the tracker did. */
  lemma {:induction false} KeptGet(t: Tracker, held: seq<string>, k: string)
    ensures Get(Kept(t, held), k) == (if k in held then Get(t, k) else None)
  {
    if |t| > 0 {
      KeptGet(t[1..], held, k);
      var rest := Kept(t[1..], held);
      if t[0].0 in held {
        assert ([t[0]] + rest)[1..] == rest;
      }
    }
  }

  /** Keeping some entries keeps the keys distinct. */
  lemma {:induction false} KeptDistinct(t: Tracker, held: seq<string>)
    requires DistinctKeys(t)
    ensures DistinctKeys(Kept(t, held))
  {
    if |t| > 0 {
      DistinctTail(t);
      KeptDistinct(t[1..], held);
      var rest := Kept(t[1..], held);
      forall j | 0 <= j < |rest| ensures rest[j].0 != t[0].0 {
        assert rest[j] in t[1..];
      }
    }
  }

  /** The loop of `clean_tracker`: it builds a new dictionary and leaves the one it is given alone. */
  method CleanTracker(tracker: TrackerDict, held: seq<string>) returns (r: TrackerDict)
    ensures fresh(r) && r.entries == Kept(tracker.entries, held)
  {
    var t := tracker.entries;
    var kept := [];
    var i := |t|;
    while i > 0
      invariant 0 <= i <= |t|
      invariant kept == Kept(t[i..], held)
    {
      i := i - 1;
      assert t[i..][1..] == t[i + 1..];
      if t[i].0 in held {
        kept := [t[i]] + kept;
      }
    }
    r := new TrackerDict(kept);
  }

  /** The unit test: holding only AAPL keeps only AAPL's entry. */
  lemma CleanTrackerTest()
    ensures Kept([("AAPL", Entry("1", Some("3"))), ("FB", Entry("2", Some("4")))], ["AAPL"]) == [("AAPL", Entry("1", Some("3")))]
  {
    var t := [("AAPL", Entry("1", Some("3"))), ("FB", Entry("2", Some("4")))];
    assert t[1..] == [("FB", Entry("2", Some("4")))];
    assert t[1..][1..] == [];
  }
}
