/**
 * The thread-local slot that holds the algorithm the `api` functions act on,
 * the context manager that installs an algorithm for a block, the redirect
 * every API function goes through, and the four guard decorators of the
 * algorithm's API methods. An algorithm is identified here by a number.
 */
module ApiContext {
  import opened Wrappers

  /** The slot `context.algorithm`; `None` when nothing was ever set. */
  class ContextSlot {
    var algorithm: Option<int>

    /** A fresh thread-local has no `algorithm` attribute. */
    constructor()
      ensures algorithm.None?
    {
      algorithm := None;
    }

    /** `get_context`: the installed algorithm, or `None` when nothing has been set. */
    function Get(): Option<int>
      reads this
    {
      algorithm
    }

    /** `set_context` */
    method Set(a: Option<int>)
      modifies this
      ensures algorithm == a
    {
      algorithm := a;
    }
  }

  /**
   * `LiveTraderAPI(algo)`: entering saves the slot's previous content and
   * installs `algo`; leaving puts the saved content back.
   */
  class LiveTraderApi {
    const algo: int
    var prevContext: Option<int>

    constructor(algo: int)
      ensures this.algo == algo && prevContext.None?
    {
      this.algo := algo;
      prevContext := None;
    }

    method Enter(slot: ContextSlot)
      modifies this, slot
      ensures prevContext == old(slot.algorithm) && slot.algorithm == Some(algo)
    {
      prevContext := slot.Get();
      slot.Set(Some(algo));
    }

    method Exit(slot: ContextSlot)
      modifies slot
      ensures slot.algorithm == prevContext
    {
      slot.Set(prevContext);
    }
  }

  /**
   * Two nested blocks unwind in last-in-first-out order: inside the inner
   * block its algorithm is installed, after it the outer one is back, and
   * after both the slot holds what it held before.
   */
  method Nested(slot: ContextSlot, outer: LiveTraderApi, inner: LiveTraderApi)
    returns (during: Option<int>, between: Option<int>)
    requires outer != inner
    modifies slot, outer, inner
    ensures during == Some(inner.algo) && between == Some(outer.algo)
    ensures slot.algorithm == old(slot.algorithm)
  {
    outer.Enter(slot);
    inner.Enter(slot);
    during := slot.Get();
    inner.Exit(slot);
    between := slot.Get();
    outer.Exit(slot);
  }

  /** A method call on an algorithm, by the name of the API function. */
  datatype Call = Call(algorithm: int, name: string)

  /** The message of the `RuntimeError` raised outside live trading. */
  function OutsideTradingMessage(name: string): string
  {
    name + " method must be called during live trading"
  }

  /**
   * The wrapper `api_method` registers: with no algorithm in the slot it
   * fails with the outside-trading message, otherwise it forwards to the
   * same-named method of the installed algorithm.
   */
  function Redirect(context: Option<int>, name: string): (r: Result<Call, string>)
    ensures r.Err? <==> context.None?
    ensures r.Ok? ==> r.value.algorithm == context.value && r.value.name == name
    ensures r.Err? ==> r.error == OutsideTradingMessage(name)
  {
    match context
    case None => Err(OutsideTradingMessage(name))
    case Some(a) => Ok(Call(a, name))
  }

  /** The four guard decorators of the algorithm's API methods. */
  datatype Guard = RequireNotInitialized | RequireInitialized
                 | DisallowedInBeforeTradingStart | AllowedOnlyInBeforeTradingStart

  /** The two flags of the algorithm the guards read. */
  datatype GuardFlags = GuardFlags(initialized: bool, inBeforeTradingStart: bool)

  /** Whether guard `g` raises its exception on an algorithm in state `f`. */
  predicate Raises(g: Guard, f: GuardFlags)
  {
    match g
    case RequireNotInitialized => f.initialized
    case RequireInitialized => !f.initialized
    case DisallowedInBeforeTradingStart => f.inBeforeTradingStart
    case AllowedOnlyInBeforeTradingStart => !f.inBeforeTradingStart
  }

  /**
   * A guarded call: the guard's exception when it raises, and otherwise the
   * wrapped method's own result, unchanged.
   */
  function Guarded<T, E>(g: Guard, f: GuardFlags, exception: E, result: T): (r: Result<T, E>)
    ensures r.Err? <==> Raises(g, f)
    ensures r.Err? ==> r.error == exception
    ensures r.Ok? ==> r.value == result
  {
    if Raises(g, f) then Err(exception) else Ok(result)
  }

  /**
   * The guards come in complementary pairs: on any state, of two calls
   * guarded by the two guards of a pair, exactly one gets its wrapped
   * result through and the other fails with its own exception. The
   * initialisation guards read only the initialised flag and the
   * before-trading-start guards only the other flag.
   */
  lemma GuardsComplement<T, E>(f: GuardFlags, e1: E, e2: E, x: T, y: T)
    ensures var a, b := Guarded(RequireInitialized, f, e1, x), Guarded(RequireNotInitialized, f, e2, y);
      (a.Ok? <==> b.Err?) && (a.Ok? ==> a.value == x && b.error == e2) && (b.Ok? ==> b.value == y && a.error == e1)
    ensures var a, b := Guarded(DisallowedInBeforeTradingStart, f, e1, x), Guarded(AllowedOnlyInBeforeTradingStart, f, e2, y);
      (a.Ok? <==> b.Err?) && (a.Ok? ==> a.value == x && b.error == e2) && (b.Ok? ==> b.value == y && a.error == e1)
    ensures Guarded(RequireInitialized, f, e1, x).Ok? <==> f.initialized
    ensures Guarded(DisallowedInBeforeTradingStart, f, e1, x).Ok? <==> !f.inBeforeTradingStart
  {
  }
}
