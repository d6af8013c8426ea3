/**
 * The algorithm object: its two flags (initialised, inside
 * `before_trading_start`), the registered controls, the recorded
 * variables, the cached portfolio and account, and the `order*` calls
 * that read all of these and hand a submission to the backend.
 */
module Algorithms {
  import opened Wrappers
  import opened Assets
  import opened OrderRules

  /** An account as the backend reports it; its contents are not inspected here. */
  datatype Account = Account(id: int)

  /** A name or a value given to `record`. */
  datatype RecordValue = Text(text: string) | Number(number: real)

  /** Positional `record` arguments taken two at a time as (name, value); an odd last one is dropped. */
  function Pairs(args: seq<RecordValue>): (ps: seq<(RecordValue, RecordValue)>)
    ensures |ps| == |args| / 2
    ensures forall k :: 0 <= k < |ps| ==> ps[k] == (args[2 * k], args[2 * k + 1])
  {
    seq(|args| / 2, k requires 0 <= k < |args| / 2 => (args[2 * k], args[2 * k + 1]))
  }

  /** The recorded variables after writing the pairs in order, a later write winning. */
  function WriteAll(vars: map<RecordValue, RecordValue>, ps: seq<(RecordValue, RecordValue)>): (r: map<RecordValue, RecordValue>)
    ensures r.Keys == vars.Keys + set k | 0 <= k < |ps| :: ps[k].0
  {
    if |ps| == 0 then vars
    else
      var init := ps[..|ps| - 1];
      var w := WriteAll(vars, init);
      assert (set k | 0 <= k < |ps| :: ps[k].0) == (set k | 0 <= k < |init| :: init[k].0) + {ps[|ps| - 1].0} by {
        forall k | 0 <= k < |init| ensures init[k] == ps[k] { }
      }
      w[ps[|ps| - 1].0 := ps[|ps| - 1].1]
  }

  /** Writing one more pair updates its key. */
  lemma WriteAllSnoc(vars: map<RecordValue, RecordValue>, ps: seq<(RecordValue, RecordValue)>, i: nat)
    requires i < |ps|
    ensures WriteAll(vars, ps[..i + 1]) == WriteAll(vars, ps[..i])[ps[i].0 := ps[i].1]
  {
    var qs := ps[..i + 1];
    assert qs[..|qs| - 1] == ps[..i];
    assert qs[|qs| - 1] == ps[i];
  }

  /** A name keeps the value of its last write, and a name never written keeps its old value. */
  lemma {:induction false} WriteAllLast(vars: map<RecordValue, RecordValue>, ps: seq<(RecordValue, RecordValue)>, j: nat)
    requires j < |ps|
    requires forall k :: j < k < |ps| ==> ps[k].0 != ps[j].0
    ensures ps[j].0 in WriteAll(vars, ps) && WriteAll(vars, ps)[ps[j].0] == ps[j].1
  {
    var init := ps[..|ps| - 1];
    if j < |ps| - 1 {
      assert init[j] == ps[j];
      WriteAllLast(vars, init, j);
    }
  }

  /** A name no pair writes keeps the value it had. */
  lemma {:induction false} WriteAllUntouched(vars: map<RecordValue, RecordValue>, ps: seq<(RecordValue, RecordValue)>, n: RecordValue)
    requires n in vars
    requires forall k :: 0 <= k < |ps| ==> ps[k].0 != n
    ensures WriteAll(vars, ps)[n] == vars[n]
  {
    if |ps| > 0 {
      WriteAllUntouched(vars, ps[..|ps| - 1], n);
    }
  }

  /** Keyword arguments, in the order given, as (name, value) pairs. */
  function KeywordPairs(kwargs: seq<(string, RecordValue)>): (ps: seq<(RecordValue, RecordValue)>)
    ensures |ps| == |kwargs|
    ensures forall k :: 0 <= k < |ps| ==> ps[k] == (Text(kwargs[k].0), kwargs[k].1)
  {
    seq(|kwargs|, k requires 0 <= k < |kwargs| => (Text(kwargs[k].0), kwargs[k].1))
  }

  /** The writes of `record(*args, **kwargs)`: the positional pairs, then the keyword arguments. */
  function RecordWrites(args: seq<RecordValue>, kwargs: seq<(string, RecordValue)>): seq<(RecordValue, RecordValue)>
  {
    Pairs(args) + KeywordPairs(kwargs)
  }

  /** What `record(*args, **kwargs)` leaves. */
  function Recorded(vars: map<RecordValue, RecordValue>, args: seq<RecordValue>, kwargs: seq<(string, RecordValue)>)
    : map<RecordValue, RecordValue>
  {
    WriteAll(vars, RecordWrites(args, kwargs))
  }

  /** A keyword argument, given once, always wins over the positional pairs. */
  lemma RecordedKeyword(vars: map<RecordValue, RecordValue>, args: seq<RecordValue>, kwargs: seq<(string, RecordValue)>, j: nat)
    requires j < |kwargs|
    requires forall k :: j < k < |kwargs| ==> kwargs[k].0 != kwargs[j].0
    ensures var r := Recorded(vars, args, kwargs); Text(kwargs[j].0) in r && r[Text(kwargs[j].0)] == kwargs[j].1
  {
    var ws := RecordWrites(args, kwargs);
    var p := |Pairs(args)|;
    assert ws[p + j] == (Text(kwargs[j].0), kwargs[j].1);
    assert forall k :: p + j < k < |ws| ==> ws[k] == KeywordPairs(kwargs)[k - p];
    WriteAllLast(vars, ws, p + j);
  }

  /** A positional name that is not repeated later, nor given as a keyword, keeps the value after it. */
  lemma RecordedPositional(vars: map<RecordValue, RecordValue>, args: seq<RecordValue>, kwargs: seq<(string, RecordValue)>, j: nat)
    requires 2 * j + 1 < |args|
    requires forall k :: j < k < |args| / 2 ==> args[2 * k] != args[2 * j]
    requires forall k :: 0 <= k < |kwargs| ==> Text(kwargs[k].0) != args[2 * j]
    ensures var r := Recorded(vars, args, kwargs); args[2 * j] in r && r[args[2 * j]] == args[2 * j + 1]
  {
    var ws := RecordWrites(args, kwargs);
    var ps := Pairs(args);
    assert ws[j] == ps[j];
    assert forall k :: j < k < |ps| ==> ws[k].0 != ws[j].0;
    assert forall k :: |ps| <= k < |ws| ==> ws[k] == KeywordPairs(kwargs)[k - |ps|];
    WriteAllLast(vars, ws, j);
  }

  /** A trailing odd positional argument is ignored. */
  lemma RecordedOddIgnored(vars: map<RecordValue, RecordValue>, args: seq<RecordValue>, kwargs: seq<(string, RecordValue)>, x: RecordValue)
    requires |args| % 2 == 0
    ensures Recorded(vars, args + [x], kwargs) == Recorded(vars, args, kwargs)
  {
    assert Pairs(args + [x]) == Pairs(args);
    assert RecordWrites(args + [x], kwargs) == RecordWrites(args, kwargs);
  }

  class Algorithm {
    var initialized: bool
    var inBeforeTradingStart: bool
    var tradingControls: seq<TradingControl>
    var accountControls: seq<AccountControl>
    var recordedVars: map<RecordValue, RecordValue>
    var portfolioNeedsUpdate: bool
    var accountNeedsUpdate: bool
    var cachedPortfolio: Option<Portfolio>
    var cachedAccount: Option<Account>
    /** `datetime`, which is unset until the first `on_dt_changed`. */
    var datetime: Option<int>

    /** A cache that claims to be fresh holds a value. */
    ghost predicate Valid()
      reads this
    {
      (!portfolioNeedsUpdate ==> cachedPortfolio.Some?) && (!accountNeedsUpdate ==> cachedAccount.Some?)
    }

    /** A new algorithm: not initialised, no controls, nothing recorded, both caches stale. */
    constructor()
      ensures Valid()
      ensures !initialized && !inBeforeTradingStart
      ensures tradingControls == [] && accountControls == [] && recordedVars == map[]
      ensures portfolioNeedsUpdate && accountNeedsUpdate && datetime.None?
    {
      initialized := false;
      inBeforeTradingStart := false;
      tradingControls := [];
      accountControls := [];
      recordedVars := map[];
      portfolioNeedsUpdate := true;
      accountNeedsUpdate := true;
      cachedPortfolio := None;
      cachedAccount := None;
      datetime := None;
    }

    /** The `portfolio` property would yield this, given what the backend reports now. */
    function SeenPortfolio(backendPortfolio: Portfolio): Portfolio
      requires Valid()
      reads this
    {
      if portfolioNeedsUpdate then backendPortfolio else cachedPortfolio.value
    }

    /** `portfolio`: the backend is asked only when the cache is stale, and its answer is kept. */
    method GetPortfolio(backendPortfolio: Portfolio) returns (p: Portfolio)
      requires Valid()
      modifies this
      ensures Valid()
      ensures p == old(SeenPortfolio(backendPortfolio))
      ensures !portfolioNeedsUpdate && cachedPortfolio == Some(p)
      ensures accountNeedsUpdate == old(accountNeedsUpdate) && cachedAccount == old(cachedAccount)
      ensures initialized == old(initialized) && inBeforeTradingStart == old(inBeforeTradingStart)
      ensures tradingControls == old(tradingControls) && accountControls == old(accountControls)
      ensures recordedVars == old(recordedVars) && datetime == old(datetime)
    {
      if portfolioNeedsUpdate {
        cachedPortfolio := Some(backendPortfolio);
        portfolioNeedsUpdate := false;
      }
      p := cachedPortfolio.value;
    }

    /** `account`: the same caching as the portfolio, on its own flag. */
    method GetAccount(backendAccount: Account) returns (a: Account)
      requires Valid()
      modifies this
      ensures Valid()
      ensures a == (if old(accountNeedsUpdate) then backendAccount else old(cachedAccount).value)
      ensures !accountNeedsUpdate && cachedAccount == Some(a)
      ensures portfolioNeedsUpdate == old(portfolioNeedsUpdate) && cachedPortfolio == old(cachedPortfolio)
      ensures initialized == old(initialized) && inBeforeTradingStart == old(inBeforeTradingStart)
      ensures tradingControls == old(tradingControls) && accountControls == old(accountControls)
      ensures recordedVars == old(recordedVars) && datetime == old(datetime)
    {
      if accountNeedsUpdate {
        cachedAccount := Some(backendAccount);
        accountNeedsUpdate := false;
      }
      a := cachedAccount.value;
    }

    /** `on_dt_changed`: the new time, and both caches marked stale. */
    method OnDtChanged(dt: int)
      requires Valid()
      modifies this
      ensures Valid()
      ensures datetime == Some(dt) && portfolioNeedsUpdate && accountNeedsUpdate
      ensures cachedPortfolio == old(cachedPortfolio) && cachedAccount == old(cachedAccount)
      ensures initialized == old(initialized) && inBeforeTradingStart == old(inBeforeTradingStart)
      ensures tradingControls == old(tradingControls) && accountControls == old(accountControls)
      ensures recordedVars == old(recordedVars)
    {
      portfolioNeedsUpdate := true;
      accountNeedsUpdate := true;
      datetime := Some(dt);
    }

    /** `register_trading_control`: refused once initialised, appended before. */
    method RegisterTradingControl(control: TradingControl) returns (r: Result<(), AlgoError>)
      modifies this
      ensures old(initialized) ==> r == Err(RegisterTradingControlPostInit) && tradingControls == old(tradingControls)
      ensures !old(initialized) ==> r.Ok? && tradingControls == old(tradingControls) + [control]
      ensures initialized == old(initialized) && inBeforeTradingStart == old(inBeforeTradingStart)
      ensures accountControls == old(accountControls) && recordedVars == old(recordedVars) && datetime == old(datetime)
      ensures portfolioNeedsUpdate == old(portfolioNeedsUpdate) && cachedPortfolio == old(cachedPortfolio)
      ensures accountNeedsUpdate == old(accountNeedsUpdate) && cachedAccount == old(cachedAccount)
    {
      if initialized {
        return Err(RegisterTradingControlPostInit);
      }
      tradingControls := tradingControls + [control];
      return Ok(());
    }

    /** `register_account_control`: refused once initialised, appended before. */
    method RegisterAccountControl(control: AccountControl) returns (r: Result<(), AlgoError>)
      modifies this
      ensures old(initialized) ==> r == Err(RegisterAccountControlPostInit) && accountControls == old(accountControls)
      ensures !old(initialized) ==> r.Ok? && accountControls == old(accountControls) + [control]
      ensures initialized == old(initialized) && inBeforeTradingStart == old(inBeforeTradingStart)
      ensures tradingControls == old(tradingControls) && recordedVars == old(recordedVars) && datetime == old(datetime)
      ensures portfolioNeedsUpdate == old(portfolioNeedsUpdate) && cachedPortfolio == old(cachedPortfolio)
      ensures accountNeedsUpdate == old(accountNeedsUpdate) && cachedAccount == old(cachedAccount)
    {
      if initialized {
        return Err(RegisterAccountControlPostInit);
      }
      accountControls := accountControls + [control];
      return Ok(());
    }

    /**
     * `initialize`, as far as the flags and controls go: the user's
     * `initialize` registers its trading controls, and the algorithm is
     * initialised afterwards.
     */
    method Initialize(userControls: seq<TradingControl>)
      requires !initialized
      modifies this
      ensures initialized && tradingControls == old(tradingControls) + userControls
      ensures inBeforeTradingStart == old(inBeforeTradingStart) && accountControls == old(accountControls)
      ensures recordedVars == old(recordedVars) && datetime == old(datetime)
      ensures portfolioNeedsUpdate == old(portfolioNeedsUpdate) && cachedPortfolio == old(cachedPortfolio)
      ensures accountNeedsUpdate == old(accountNeedsUpdate) && cachedAccount == old(cachedAccount)
    {
      for i := 0 to |userControls|
        invariant !initialized && tradingControls == old(tradingControls) + userControls[..i]
        invariant inBeforeTradingStart == old(inBeforeTradingStart) && accountControls == old(accountControls)
        invariant recordedVars == old(recordedVars) && datetime == old(datetime)
        invariant portfolioNeedsUpdate == old(portfolioNeedsUpdate) && cachedPortfolio == old(cachedPortfolio)
        invariant accountNeedsUpdate == old(accountNeedsUpdate) && cachedAccount == old(cachedAccount)
      {
        var _ := RegisterTradingControl(userControls[i]);
        assert userControls[..i + 1] == userControls[..i] + [userControls[i]];
      }
      assert userControls[..|userControls|] == userControls;
      initialized := true;
    }

    /**
     * `before_trading_start`: without a callback nothing happens; otherwise
     * the flag is set around the callback and cleared after it, but stays
     * set when the callback raises.
     */
    method BeforeTradingStart(hasCallback: bool, callbackRaises: bool) returns (raised: bool)
      modifies this
      ensures !hasCallback ==> !raised && inBeforeTradingStart == old(inBeforeTradingStart)
      ensures hasCallback ==> raised == callbackRaises && inBeforeTradingStart == callbackRaises
      ensures initialized == old(initialized) && tradingControls == old(tradingControls)
      ensures accountControls == old(accountControls) && recordedVars == old(recordedVars) && datetime == old(datetime)
      ensures portfolioNeedsUpdate == old(portfolioNeedsUpdate) && cachedPortfolio == old(cachedPortfolio)
      ensures accountNeedsUpdate == old(accountNeedsUpdate) && cachedAccount == old(cachedAccount)
    {
      if !hasCallback {
        return false;
      }
      inBeforeTradingStart := true;
      if callbackRaises {
        return true;
      }
      inBeforeTradingStart := false;
      return false;
    }

    /** `record`: the positional arguments written pair by pair, then the keyword arguments. */
    method Record(args: seq<RecordValue>, kwargs: seq<(string, RecordValue)>)
      modifies this
      ensures recordedVars == Recorded(old(recordedVars), args, kwargs)
      ensures initialized == old(initialized) && inBeforeTradingStart == old(inBeforeTradingStart)
      ensures tradingControls == old(tradingControls) && accountControls == old(accountControls)
      ensures datetime == old(datetime)
      ensures portfolioNeedsUpdate == old(portfolioNeedsUpdate) && cachedPortfolio == old(cachedPortfolio)
      ensures accountNeedsUpdate == old(accountNeedsUpdate) && cachedAccount == old(cachedAccount)
    {
      var ws := RecordWrites(args, kwargs);
      for i := 0 to |ws|
        invariant recordedVars == WriteAll(old(recordedVars), ws[..i])
        invariant initialized == old(initialized) && inBeforeTradingStart == old(inBeforeTradingStart)
        invariant tradingControls == old(tradingControls) && accountControls == old(accountControls)
        invariant datetime == old(datetime)
        invariant portfolioNeedsUpdate == old(portfolioNeedsUpdate) && cachedPortfolio == old(cachedPortfolio)
        invariant accountNeedsUpdate == old(accountNeedsUpdate) && cachedAccount == old(cachedAccount)
      {
        WriteAllSnoc(old(recordedVars), ws, i);
        recordedVars := recordedVars[ws[i].0 := ws[i].1];
      }
      assert ws[..|ws|] == ws;
    }

    /** What an order call sees of this algorithm, given the backend's portfolio and the bar data. */
    function Context(backendPortfolio: Portfolio, data: CurrentData): OrderContext
      requires Valid()
      reads this
    {
      OrderContext(initialized, inBeforeTradingStart, tradingControls, datetime, SeenPortfolio(backendPortfolio), data)
    }

    /**
     * `order*`: the plan decides what is submitted or raised; the backend
     * answers a submission with an order, whose id is returned, or with
     * nothing. Reading the portfolio, for sizing or for the controls,
     * leaves it cached.
     */
    method Order(asset: Orderable, req: OrderRequest, limit: Option<real>, stop: Option<real>,
                 style: Option<ExecutionStyle>, data: CurrentData, backendPortfolio: Portfolio,
                 backendAnswer: Option<string>)
      returns (r: Result<Option<string>, AlgoError>, submitted: Option<Submission>)
      requires Valid()
      modifies this
      ensures Valid()
      ensures var plan := PlanRequest(old(Context(backendPortfolio, data)), asset, req, limit, stop, style);
        (plan.Err? ==> r == Err(plan.error) && submitted.None?)
        && (plan.Ok? ==> submitted == plan.value && r == Ok(if plan.value.Some? then backendAnswer else None))
      ensures ReadsPortfolio(old(Context(backendPortfolio, data)), asset, req, limit, stop, style) ==>
        !portfolioNeedsUpdate && cachedPortfolio == Some(old(SeenPortfolio(backendPortfolio)))
      ensures !ReadsPortfolio(old(Context(backendPortfolio, data)), asset, req, limit, stop, style) ==>
        portfolioNeedsUpdate == old(portfolioNeedsUpdate) && cachedPortfolio == old(cachedPortfolio)
      ensures initialized == old(initialized) && inBeforeTradingStart == old(inBeforeTradingStart)
      ensures tradingControls == old(tradingControls) && accountControls == old(accountControls)
      ensures recordedVars == old(recordedVars) && datetime == old(datetime)
      ensures accountNeedsUpdate == old(accountNeedsUpdate) && cachedAccount == old(cachedAccount)
    {
      var c := Context(backendPortfolio, data);
      var plan := PlanRequest(c, asset, req, limit, stop, style);
      if ReadsPortfolio(c, asset, req, limit, stop, style) {
        var _ := GetPortfolio(backendPortfolio);
      }
      if plan.Err? {
        return Err(plan.error), None;
      }
      submitted := plan.value;
      if submitted.Some? {
        r := Ok(backendAnswer);
      } else {
        r := Ok(None);
      }
    }
  }

  /** `validate_order_params` reaches the trading controls, which are handed the portfolio. */
  predicate ReachesControls(c: OrderContext, asset: Orderable, limit: Option<real>, stop: Option<real>,
                            style: Option<ExecutionStyle>)
  {
    !c.inBeforeTradingStart && CanOrderAsset(asset, c.datetime) == Ok(true) && c.initialized
    && !(style.Some? && (Given(limit) || Given(stop))) && |c.controls| > 0
  }

  /** Whether an order call reads the `portfolio` property: to size the order, or to hand it to the controls. */
  predicate ReadsPortfolio(c: OrderContext, asset: Orderable, req: OrderRequest, limit: Option<real>,
                           stop: Option<real>, style: Option<ExecutionStyle>)
  {
    match req
    case Shares(_) => ReachesControls(c, asset, limit, stop, style)
    case Value(v) =>
      !c.inBeforeTradingStart && CanOrderAsset(asset, c.datetime) == Ok(true)
      && ValueAmount(c.data, asset.asset, v).Ok? && ReachesControls(c, asset, limit, stop, style)
    case TargetValue(v) => CanOrderAsset(asset, c.datetime) == Ok(true) && ValueAmount(c.data, asset.asset, v).Ok?
    case _ => CanOrderAsset(asset, c.datetime) == Ok(true)
  }

  /** Once initialised, registering a control fails and the controls stay as they were. */
  method NoControlsAfterInitialize(controls: seq<TradingControl>, late: TradingControl)
    returns (r: Result<(), AlgoError>, registered: seq<TradingControl>)
    ensures r == Err(RegisterTradingControlPostInit)
    ensures registered == controls
  {
    var algo := new Algorithm();
    algo.Initialize(controls);
    r := algo.RegisterTradingControl(late);
    registered := algo.tradingControls;
  }

  /** Within one bar the backend's portfolio is read once; after the time moves on it is read afresh. */
  method PortfolioCachedPerBar(first: Portfolio, second: Portfolio, third: Portfolio, dt: int)
    returns (p1: Portfolio, p2: Portfolio, p3: Portfolio)
    ensures p1 == first && p2 == first && p3 == third
  {
    var algo := new Algorithm();
    p1 := algo.GetPortfolio(first);
    p2 := algo.GetPortfolio(second);
    algo.OnDtChanged(dt);
    p3 := algo.GetPortfolio(third);
  }
}
