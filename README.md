# pylivetrader, modelled in Dafny

pylivetrader runs Zipline-style trading algorithms live against a broker
(Alpaca). This project models the rule-bearing core of the library and
proves properties of it:

- **Clocks**: the realtime clock's poll loop (`RealtimeClock.__iter__`), and
  its two replaying twins under `testing/fake` and `testing/smoke`. The
  model is one pure step function over (server minute, current session,
  last-emit time, before-trading-start flag), which the three clock classes
  drive. The step is proved to match each branch of the loop. Proved over
  whole runs: timestamps are ordered, there is at most one
  before-trading-start bar per session, and with the one-minute gap guard
  the BAR timestamps strictly increase.
- **Executor**: `AlgorithmExecutor.run`, meaning the clock configuration,
  the per-event effects, `handle_retry`, and the reset in the `finally`.
- **Orders and brokers**: the derived order status; the Alpaca backend's
  position-flip split, trade-update handler, `_order2zp`, `all_orders`
  short-circuit, pagination and the `initialize_data` merge; the paper
  backend copy; and `skip_http_error`.
- **Algorithm API**: share rounding, order sizing and gating, the
  before-trading-start flag, control registration, `record`,
  `get_all_orders` grouping, portfolio and account caching, the
  API-context stack with its guards, and the state store's
  checksum-guarded round trip.
- **Lookup and formatting**: the asset finder's cache, sid and symbol
  lookups, `Asset` printing, sentinels, and error messages.
- **Data**: `BarData.current` (its fan-out and result shape), the stale and
  tradable predicates, the current-minute computation, and the data
  portal's retry loop and forward-then-backward fill.
- **Test backends**: the fake, smoke and fixture backends; bijective
  base-26 symbol names; the fill rule; position and cost-basis accounting;
  fixture bars.
- **String transforms**: the migration tool, the loader's import renames,
  and `extract_filename`.
- **Example helpers**: the reversion tracker helpers and the five-cent
  price rounding.

How the model represents things:

- Times are integer UTC minutes.
- Prices are mathematical reals.
- A NaN or NaT becomes `Option`.
- The trading calendar, the time zones and the broker API are function
  parameters.
- Objects whose fields the source updates are classes with `modifies`
  frames, and their loops are `while` loops with invariants. Everything
  else is datatypes and functions.

The modules follow the source files:

| source | Dafny |
|---|---|
| `executor/realtimeclock.py` | `clock_rules.dfy` (the step and its theory), `realtime_clock.dfy` |
| `testing/fake/clock.py` | `fake_clock.dfy` |
| `testing/smoke/clock.py` | `smoke_clock.dfy` |
| `executor/executor.py` | `executor.dfy` |
| `finance/order.py` | `order.dfy` |
| `backend/alpaca.py` | `broker.dfy` (shared broker rules), `alpaca_backend.dfy` |
| `examples/reversion/paper.py` | `paper_backend.dfy` |
| `algorithm.py` | `order_rules.dfy`, `order_grouping.dfy`, `algorithm.dfy` |
| `misc/api_context.py` | `api_context.dfy` |
| `statestore/__init__.py` | `statestore.dfy` |
| `assets/assets.py` | `assets.dfy` |
| `assets/finder.py` | `finder.dfy` |
| `misc/sentinel.py` | `sentinel.dfy` |
| `errors.py` | `errors.dfy` |
| `data/bardata.py` | `bardata.dfy`, `bars.dfy` |
| `data/data_portal.py` | `data_portal.dfy` |
| `testing/smoke/backend.py` | `smoke_backend.dfy` |
| `testing/fake/backend.py` | `fake_backend.dfy` |
| `testing/fixtures.py` | `fixtures.dfy` |
| `misc/migration_tool.py` | `migration_tool.dfy` |
| `loader.py` | `loader.dfy` |
| `__main__.py` | `main_cli.dfy` |
| `examples/reversion/reversion_original.py` | `reversion.dfy` |
| `algo.py`, `examples/q01/original.py` | `price_helpers.dfy` |
| (shared) | `wrappers.dfy`, `strings.dfy`, `ordered_dict.dfy`, `time_model.dfy` |

## Model

| member | source | states |
|---|---|---|
| TimeModel.ServerMinute | pylivetrader/executor/realtimeclock.py:65-66 | the server minute is the wall-clock seconds plus the skew, floored to a whole minute |
| TimeModel.DayLabel | pylivetrader/executor/realtimeclock.py:68 | the session label is the start of the UTC day the minute lies in, a multiple of a day at most a day below it |
| TimeModel.DayLabelFacts | pylivetrader/executor/realtimeclock.py:68 | flooring to the day is idempotent and monotone, and two different labels lie at least a day apart |
| ClockRules.KindCode | pylivetrader/executor/realtimeclock.py:22-26 | each event kind has the module's integer constant, and the code maps back to the kind |
| ClockRules.KindOfCode | pylivetrader/executor/realtimeclock.py:22-26 | exactly the codes 0 to 4 name an event kind |
| ClockRules.BranchEventsFacts | pylivetrader/executor/realtimeclock.py:93-117 | each arm of the elif chain yields events at the server minute. BAR comes only first and SESSION_END only last. BAR is yielded exactly in the two bar arms, MINUTE_END exactly there when minute emission is on, SESSION_END exactly at the close, and BEFORE_TRADING_START_BAR exactly in its own arm |
| ClockRules.BranchScan | pylivetrader/executor/realtimeclock.py:93-97 | only the before-trading-start arm sets the tracked flag; it yields one BEFORE_TRADING_START_BAR only when the flag was clear, and a BAR arm needs the flag set |
| ClockRules.BranchStateFacts | pylivetrader/executor/realtimeclock.py:93-115 | an arm changes the flag only in the before-trading-start arm. Every emitting arm sets the last-emit time to the server minute. The session stays |
| ClockRules.NonSessionPollIsSilent | pylivetrader/executor/realtimeclock.py:69-72 | a poll whose day label is not a session emits nothing and leaves the state unchanged |
| ClockRules.SessionStartRule | pylivetrader/executor/realtimeclock.py:74-77 | SESSION_START with the label opens the poll exactly when the label differs from the current session (or there is none); no later event of the poll is one; the label becomes the current session |
| ClockRules.BeforeTradingStartRule | pylivetrader/executor/realtimeclock.py:79-97 | BEFORE_TRADING_START_BAR is emitted exactly when the server minute reaches the session's before-trading-start instant with the flag clear; it sets the flag and the last-emit time and no BAR comes in the same poll |
| ClockRules.BarRule | pylivetrader/executor/realtimeclock.py:98-115 | BAR is emitted exactly when the before-trading-start arm is not taken and either the minute lies in [open, close) with the one-minute gap met, or it is the close, where as written no gap is checked. MINUTE_END follows exactly when minute emission is on. SESSION_END comes exactly at the close and last. A BAR sets the last-emit time |
| ClockRules.OutsideHoursRule | pylivetrader/executor/realtimeclock.py:98-99 | once the before-trading-start arm is passed, a poll before the open or after the close emits only the session start, if any, and changes only the session bookkeeping |
| ClockRules.InSessionPollEmits | pylivetrader/executor/realtimeclock.py:100-115 | inside [open, close] of the current session with the bar done and the gap met, a poll emits exactly BAR (and MINUTE_END), plus SESSION_END at the close, and records the minute |
| ClockRules.GuardIrrelevantWhenGapOk | pylivetrader/executor/realtimeclock.py:100-115 | when the gap rule holds, the guarded close arm behaves exactly as the code |
| ClockRules.StepEventTimes | pylivetrader/executor/realtimeclock.py:74-115 | a poll's SESSION_START is first, carries the day label and only occurs for a new session; every other event carries the server minute; only a session day emits |
| ClockRules.StepStateFacts | pylivetrader/executor/realtimeclock.py:69-115 | after a poll on a session day that day is the current session; off-session nothing changes; the last-emit time is kept or set to the minute; guarded, an emission needs the gap and sets it |
| ClockRules.StepKindPositions | pylivetrader/executor/realtimeclock.py:74-115 | within a poll a BAR can only come right after the session start, and a SESSION_END only last |
| ClockRules.StepInternallyOrdered | pylivetrader/executor/realtimeclock.py:74-115 | the events of one poll are ordered by time and hold at most one BAR and one SESSION_END |
| ClockRules.StepAfterSettled | pylivetrader/executor/realtimeclock.py:64-117 | a poll at or after the latest minute puts its events after every earlier one and keeps the run settled |
| ClockRules.StepAfterCovered | pylivetrader/executor/realtimeclock.py:100-115 | with the gap guard, a poll's BAR and SESSION_END come strictly after every earlier one, and the last-emit time covers them |
| ClockRules.StepKeepsOrder | pylivetrader/executor/realtimeclock.py:64-117 | one more poll at a later minute keeps a run ordered and settled; with the guard, also strict in BAR and SESSION_END |
| ClockRules.RunOrdered | pylivetrader/executor/realtimeclock.py:64-117 | over non-decreasing polls a run's timestamps never go backwards and none is later than the last poll. With the guarded close arm, the BAR timestamps strictly increase, and so do the SESSION_END timestamps |
| ClockRules.RunBounded | pylivetrader/executor/realtimeclock.py:64-117 | no event of a run lies after the latest polled minute |
| ClockRules.CloseMinuteRepeats | pylivetrader/executor/realtimeclock.py:110-115 | as written, two polls in the close minute both emit BAR and SESSION_END for that minute, so neither kind's timestamps strictly increase |
| ClockRules.CloseTwice | pylivetrader/executor/realtimeclock.py:110-115 | the two unguarded close-minute polls emit the close events twice over |
| ClockRules.UnguardedClose | pylivetrader/executor/realtimeclock.py:110-115 | an unguarded close-minute poll in its session emits BAR, MINUTE_END if on, SESSION_END, and records the minute |
| ClockRules.GuardedCloseOnce | pylivetrader/executor/realtimeclock.py:100-115 | with the gap guard on the close arm, a second poll in the close minute is silent: the close events come once |
| ClockRules.MinuteStepsNeedNoGuard | pylivetrader/testing/fake/clock.py:37-46 | polled at successive minutes after the last emission, as the replaying clocks are, the guarded and the as-written clocks produce the same run |
| ClockRules.RunBtsOnce | pylivetrader/executor/realtimeclock.py:74-97 | over any polls, at most one BEFORE_TRADING_START_BAR per session, and the tracking flag agrees with the clock's; when every session's before-trading-start instant is at or before its open, no BAR of a session precedes its before-trading-start bar |
| ClockRules.StepScan | pylivetrader/executor/realtimeclock.py:74-97 | a poll emits no BEFORE_TRADING_START_BAR for a session that already had one, leaves the tracked flag as its events set it, and on a session day whose before-trading-start time is not after the open every BAR it emits follows a BEFORE_TRADING_START_BAR of its session |
| ClockRules.Step | pylivetrader/executor/realtimeclock.py:64-117 | a poll on a day that is not a session emits nothing and keeps the state; on a session day the state's session becomes that day |
| ClockRules.BtsSeparatedBySessionStart | pylivetrader/executor/realtimeclock.py:74-97 | between any two BEFORE_TRADING_START_BAR events of an accepted run lies a SESSION_START |
| ClockRules.BlockedUntilStart | pylivetrader/executor/realtimeclock.py:74-97 | with the flag already set, a BEFORE_TRADING_START_BAR must be preceded by a SESSION_START |
| RealtimeClocks.ServerMinutes | pylivetrader/executor/realtimeclock.py:65-66 | each wall-clock reading becomes its server minute, in order |
| RealtimeClocks.RealtimeClock.constructor | pylivetrader/executor/realtimeclock.py:46-58 | a new clock has no last emission and the flag clear |
| RealtimeClocks.RealtimeClock.StartIteration | pylivetrader/executor/realtimeclock.py:60-62 | starting an iteration forgets the current session; the last-emit time and flag persist on the object |
| RealtimeClocks.RealtimeClock.Poll | pylivetrader/executor/realtimeclock.py:64-117 | one pass of the loop yields the step's events and leaves the step's next state |
| RealtimeClocks.RealtimeClock.EnterSession | pylivetrader/executor/realtimeclock.py:74-77 | the session bookkeeping of a pass, as the step defines it |
| RealtimeClocks.RealtimeClock.Classify | pylivetrader/executor/realtimeclock.py:79-117 | the elif chain as code over the fields, equal to the chosen arm's events and state |
| RealtimeClocks.RealtimeClock.PollAll | pylivetrader/executor/realtimeclock.py:64-117 | successive passes over the readings give the run over their server minutes |
| FakeClocks.Minutes | pylivetrader/testing/fake/clock.py:37-39 | the minutes visited, one apart from the start |
| FakeClocks.FakeClock.constructor | pylivetrader/testing/fake/clock.py:26-31 | the start time is the initial time floored to a minute when given, otherwise the current UTC time taken as a whole minute; no emission yet |
| FakeClocks.FakeClock.Next | pylivetrader/testing/fake/clock.py:37-39 | `_next` advances by exactly one minute and returns the new time |
| FakeClocks.FakeClock.StartIteration | pylivetrader/testing/fake/clock.py:41-43 | an iteration starts with no current session |
| FakeClocks.FakeClock.Advance | pylivetrader/testing/fake/clock.py:45-100 | n passes classify the next n minutes with the shared step and move the time on by n |
| FakeClocks.FakeClock.Tick | pylivetrader/testing/fake/clock.py:48-100 | classifying a minute is the shared step |
| FakeClocks.FakeClock.EnterSession | pylivetrader/testing/fake/clock.py:54-57 | a new label yields SESSION_START and clears the flag |
| FakeClocks.FakeClock.Classify | pylivetrader/testing/fake/clock.py:59-100 | the elif chain over the fields equals the chosen arm |
| FakeClocks.AdvanceIsStrict | pylivetrader/testing/fake/clock.py:37-100 | the replaying clock's events are ordered, at most one BAR per minute, and each close minute's SESSION_END comes once |
| SmokeClocks.BtsEveIsWallTime | pylivetrader/testing/smoke/clock.py:40-47 | one minute after `_set_before_trading_start(t)` is the configured wall time on t's local date, where the zone converts faithfully |
| SmokeClocks.RollbackCompose | pylivetrader/testing/smoke/clock.py:49-55 | rolling back a days and then b days is rolling back a + b days |
| SmokeClocks.Remaining | pylivetrader/testing/smoke/clock.py:81-85 | how many minutes lie after the current time up to the end time |
| SmokeClocks.SmokeClock.constructor | pylivetrader/testing/smoke/clock.py:25-38 | the end time is the previous close and the start is the minute before the before-trading-start time on it; no calendar override |
| SmokeClocks.SmokeClock.RollbackDays | pylivetrader/testing/smoke/clock.py:49-56 | the time is stepped back the given number of sessions to each one's before-trading-start eve, the flag is cleared, nothing else changes |
| SmokeClocks.SmokeClock.Configure | pylivetrader/testing/smoke/clock.py:58-71 | only the attributes whose argument is given change; the calendar argument goes to a field the iteration does not read |
| SmokeClocks.SmokeClock.Next | pylivetrader/testing/smoke/clock.py:81-85 | `_next` advances one minute and stops the iteration once the time is past the end |
| SmokeClocks.SmokeClock.Tick | pylivetrader/testing/smoke/clock.py:94-145 | classifying a minute is the shared step |
| SmokeClocks.SmokeClock.EnterSession | pylivetrader/testing/smoke/clock.py:100-103 | a new label yields SESSION_START and clears the flag |
| SmokeClocks.SmokeClock.Classify | pylivetrader/testing/smoke/clock.py:105-145 | the elif chain over the fields equals the chosen arm |
| SmokeClocks.SmokeClock.Iterate | pylivetrader/testing/smoke/clock.py:87-145 | a whole iteration from a fresh session classifies every minute after the current one up to the end and then stops |
| SmokeClocks.SmokeClock.Replay | pylivetrader/testing/smoke/clock.py:91-145 | the `_next`-and-classify loop runs until `_next` stops, giving the run over those minutes |
| SmokeClocks.IterationEndsByEndTime | pylivetrader/testing/smoke/clock.py:81-85 | no event of a smoke iteration is later than the end time |
| Executor.ExecuteStopsAtFirstRaise | pylivetrader/executor/executor.py:110-119 | a run ends by raising exactly at the first event whose handler raises; when none raises, every event is handled |
| Executor.OnlyUnretriedCallbacksRaise | pylivetrader/executor/executor.py:59-74 | an event's handler raises exactly for a before-trading-start bar whose callback raised, or, without `retry`, a bar whose `handle_data` raised; with `retry` a bar's exception is logged and swallowed |
| Executor.ExecuteStep | pylivetrader/executor/executor.py:77-90 | until a handler raises, one more event appends that handler's effects, records where it raised, and moves the current time when it set one |
| Executor.Handle | pylivetrader/executor/executor.py:76-119 | exactly the BAR, SESSION_START and BEFORE_TRADING_START events set the algorithm's time, to the event's own; the rest have no effect and never raise; only a bar or a before-trading-start bar can raise |
| Executor.Execute | pylivetrader/executor/executor.py:110-119 | a raise happens at one of the events; a run that never sets the time raised nothing, did nothing, and saw only MINUTE_END and SESSION_END events |
| Executor.HandleDataOncePerBar | pylivetrader/executor/executor.py:77-90 | a run that handles every event calls `handle_data` once per BAR event, whether or not the callback raised |
| Executor.HandleCount | pylivetrader/executor/executor.py:111-119 | a BAR's handler calls `handle_data` once, every other handler never |
| Executor.ExecutePreparesCallbacks | pylivetrader/executor/executor.py:77-90 | in every run, each `handle_data(dt)` call comes right after the cache was cleared, `on_dt_changed(dt)` and `current_data.datetime = dt` |
| Executor.HandlePrepares | pylivetrader/executor/executor.py:80-88 | within one BAR handler the three preparing steps come right before `handle_data` |
| Executor.IgnoredEvents | pylivetrader/executor/executor.py:111-119 | MINUTE_END and SESSION_END neither act nor end a run |
| Executor.BeforeTradingStartMinute | pylivetrader/executor/executor.py:45-46 | the before-trading-start wall time is 08:45 (minute 525 of the day) in New York |
| Executor.AlgorithmExecutor.constructor | pylivetrader/executor/executor.py:33-53 | the clock gets the algorithm's calendar, 08:45 New York, minute emission exactly for minute data, and the backend's time skew |
| Executor.AlgorithmExecutor.HandleEvent | pylivetrader/executor/executor.py:76-119 | one event applied to the executor: the effects, the raise and the bar data's datetime of the event's handler |
| Executor.AlgorithmExecutor.Dispatch | pylivetrader/executor/executor.py:111-119 | the `for` loop handles the events in order and stops at the first that raises, leaving exactly the run's effects and datetime |
| Executor.AlgorithmExecutor.Run | pylivetrader/executor/executor.py:99-108 | however the loop ends, the references are dropped and the API slot gets back the algorithm it held before |
| Executor.ExecuteAfterRaise | pylivetrader/executor/executor.py:111-119 | once a prefix of the events has raised, the later events change nothing |
| Orders.StatusCode | pylivetrader/finance/order.py:23-28 | `ORDER_STATUS`: OPEN 0, FILLED 1, CANCELLED 2, REJECTED 3, HELD 4 |
| Orders.StatusCodesDistinct | pylivetrader/finance/order.py:23-28 | the codes are distinct, one per member |
| Orders.NewOrder | pylivetrader/finance/order.py:45-80 | a new order keeps dt, asset, amount, stop, limit, filled and commission, has `created == dt`, stored status OPEN, no stop or limit reached, no broker id and no reason, direction `copysign(1, amount)`, and the given id or else a fresh one |
| Orders.StatusCases | pylivetrader/finance/order.py:109-117 | the status is FILLED exactly when nothing is left open or the stored status is FILLED; a HELD order reports OPEN exactly when something was filled; otherwise the stored status |
| Orders.OpenAmount | pylivetrader/finance/order.py:123-125 | the open amount is what is left once the filled part is taken from the amount |
| Orders.Status | pylivetrader/finance/order.py:109-117 | nothing open means filled; otherwise the status is the stored one, except that a held order with part filled reads as open |
| Orders.IsOpen | pylivetrader/finance/order.py:119-121 | an open order has something left to fill and a stored status of open or held |
| Orders.OpenIff | pylivetrader/finance/order.py:119-125 | an order is open exactly when something is left to fill (amount minus filled) and the stored status is OPEN or HELD |
| Orders.NewOrderStatus | pylivetrader/finance/order.py:64-80 | a fresh order is FILLED exactly when its amount is zero, and open otherwise |
| Orders.OrderFillsUp | tests/test_finance/test_order.py:8-19 | an order for three shares is open, keeps its asset, and once three are filled its open amount is 0 and it is not open |
| Orders.ToDict | pylivetrader/finance/order.py:31 | `to_dict` holds every slot except the four ignored ones, `broker_order_id` only when set, and `sid` and `status`; each key has its slot's value |
| Orders.ToDictSidAndStatus | pylivetrader/finance/order.py:85-99 | the dictionary holds the asset under `sid`, the derived status under `status`, and amount and filled |
| Orders.SlotsAgree | pylivetrader/finance/order.py:85-99 | two orders with equal dictionaries agree on whether a broker id is set and on every slot value shown |
| Orders.ToDictDetermines | pylivetrader/finance/order.py:85-99 | the dictionary loses only the direction and the stored status: orders with equal dictionaries agree on every other field |
| Brokers.SkipHttpError | pylivetrader/backend/alpaca.py:67-90 | a call that returns passes its value through; the wrapper returns None exactly for an HTTP error whose status is listed; any other HTTP error is re-raised and any other exception propagates |
| Brokers.SkipHttpErrorTest | tests/test_backend/test_alpaca.py:21-35 | a 404 is swallowed by a filter for 404 and a 503 is re-raised |
| Brokers.IntAbs | pylivetrader/backend/alpaca.py:285 | `abs` of a share count is the count or its negation |
| Brokers.BrokerStatus | pylivetrader/backend/alpaca.py:262-268 | the status precedence: FILLED when filled over REJECTED when failed over CANCELLED when cancelled over OPEN, each an if-and-only-if |
| Brokers.Order2Zp | pylivetrader/backend/alpaca.py:252-270 | `_order2zp`: id is the client order id, the asset the symbol's lookup, the amount +qty for a buy and -qty for a sell, stop, limit, the submit time, zero commission, the precedence status, and the filled quantity only for a filled order |
| Brokers.Order2ZpStatusTest | tests/test_backend/test_alpaca.py:180-184 | an order with no event time is OPEN, a failed one REJECTED, a filled one FILLED |
| Brokers.SplitPlan | pylivetrader/backend/alpaca.py:282-295 | an order is split exactly in compatible mode when it is larger than the position and against it; then it sends `-position` and keeps `amount + position`, a nonzero rest on the order's side; otherwise it sends the amount unchanged |
| Brokers.NonZero | pylivetrader/backend/alpaca.py:310-311 | `price or None`: a zero or missing price is sent as none and any other as is |
| Brokers.Request | pylivetrader/backend/alpaca.py:297-334 | the request sends the unsigned size, buys exactly for a positive amount, is a day order of the style's type with its nonzero prices, for the asset's symbol under the new id |
| Brokers.RequestRoundTrip | pylivetrader/backend/alpaca.py:297-336 | an order the broker echoes back from a request converts to an order with the amount sent and the id asked for |
| Brokers.PlaceOrder | pylivetrader/backend/alpaca.py:278-343 | a rest is recorded under the new id exactly when the order is split, before it is sent, so a failed submit keeps it. The other waiting orders stay. The open orders gain exactly the broker's converted order under the new id when it is accepted, and nothing when submission fails. Every waiting order still has something to send |
| Brokers.PendingAfter | pylivetrader/backend/alpaca.py:136-151 | a waiting order is dropped exactly when its order fills, is cancelled or is rejected; other ids are untouched |
| Brokers.OpenAfter | pylivetrader/backend/alpaca.py:153-158 | a terminal event removes the id from the open orders (absent or not); any other event stores the latest snapshot; other ids are untouched |
| AlpacaBackends.TradeUpdate | pylivetrader/backend/alpaca.py:135-158 | after a trade update the waiting rest of the id is kept exactly when the event is not terminal; a terminal event removes the id from the open orders, any other stores the converted snapshot; every other id (but the new one a sent rest gets) keeps its entries; waiting orders keep something to send |
| AlpacaBackends.FillSendsRest | pylivetrader/backend/alpaca.py:141-146 | the fill of an order with a waiting rest submits the rest; when the broker accepts it the open orders hold its answer under the new id, and when not the new id is as before |
| AlpacaBackends.MapOfKeys | pylivetrader/backend/alpaca.py:400-401 | the map built from a list of broker orders holds exactly the ids of its orders |
| AlpacaBackends.MapOf | pylivetrader/backend/alpaca.py:388-400 | every order's client id is a key, and the last order with an id gives its value, since later writes overwrite |
| AlpacaBackends.MapOfLast | pylivetrader/backend/alpaca.py:400-401 | an id maps to the conversion of the last order listed with that id |
| AlpacaBackends.MapOfSnoc | pylivetrader/backend/alpaca.py:389-400 | the map of one more order is the map before with that order's entry written |
| AlpacaBackends.MapOfAppend | pylivetrader/backend/alpaca.py:401 | merging a later batch with `dict.update` is the map of the joined list |
| AlpacaBackends.RecentCount | pylivetrader/backend/alpaca.py:389-399 | the kept prefix of a page: every order in it is recent enough and the order after it, if any, is too old |
| AlpacaBackends.ShortCircuit | pylivetrader/backend/alpaca.py:368-371 | the cached open orders are returned only for an open, non-initialising request, and always for one with neither `before` nor `days_back` |
| AlpacaBackends.Recent | pylivetrader/backend/alpaca.py:390-397 | without `days_back` every order is young enough |
| AlpacaBackends.CollectUnfold | pylivetrader/backend/alpaca.py:386-405 | one page of the pagination: an empty page or one with a too-old order ends it with the young prefix; a full young page is followed by the pages listed from its last order's submit time, which is earlier |
| AlpacaBackends.CollectRecent | pylivetrader/backend/alpaca.py:386-405 | every collected order is young enough and was submitted before the start time |
| AlpacaBackends.Collect | pylivetrader/backend/alpaca.py:386-405 | every collected order is young enough and was submitted, at a non-negative time, before the time the listing started from |
| AlpacaBackends.MergeNew | pylivetrader/backend/alpaca.py:122-126 | the merge loop adds the listed orders until an id is met that is already tracked, where `+=` on two orders fails; without a clash the result is the union, and the tracked entries are never changed |
| AlpacaBackends.RecentBatch | pylivetrader/backend/alpaca.py:388-401 | one page's batch is the map of its young prefix, and the end is reached exactly when an order was too old |
| AlpacaBackends.NextPage | pylivetrader/backend/alpaca.py:387-405 | one round merges the kept orders of a page into the map of what was collected; a page with an order too old completes the collection, otherwise the next page is listed from an earlier time and holds the rest of it |
| AlpacaBackends.FetchOrders | pylivetrader/backend/alpaca.py:383-406 | the pagination loop returns the map of every collected order, pages listed backwards from the start time |
| AlpacaBackends.AlpacaBackend.constructor | pylivetrader/backend/alpaca.py:95-111 | a new backend tracks no open and no waiting orders |
| AlpacaBackends.AlpacaBackend.Order | pylivetrader/backend/alpaca.py:278-343 | `order` leaves the tables and returns the answer as the placing rule gives them, with the position held now |
| AlpacaBackends.AlpacaBackend.HandleTradeUpdate | pylivetrader/backend/alpaca.py:135-158 | the handler, as one atomic step, leaves the tables the trade-update rule gives |
| AlpacaBackends.AlpacaBackend.AllOrders | pylivetrader/backend/alpaca.py:362-406 | with status open, no `before`, no `days_back` and no initialisation it returns the tracked open orders themselves; otherwise the map of the orders collected from `before` (or now) backwards |
| AlpacaBackends.AlpacaBackend.InitializeData | pylivetrader/backend/alpaca.py:113-126 | the broker's open orders are merged into the tracked ones; a clash on an id already tracked is the failure; otherwise the tracked orders become the union and the waiting orders stay |
| PaperBackends.PositionTable | examples/reversion/paper.py:234-253 | each listed broker position whose symbol resolves is stored under its asset with its quantity; positions whose symbol does not resolve are skipped |
| PaperBackends.Positions | examples/reversion/paper.py:234-253 | the loop over the listed positions builds exactly the position table |
| PaperBackends.HeldAmount | examples/reversion/paper.py:305 | `positions[key]` is the stored amount; for a missing key, the table's default amount or the key error |
| PaperBackends.PlaceOrderAsWritten | examples/reversion/paper.py:300-365 | `order` as written: outside compatible mode it places the order as the shared rule does with no position; in compatible mode a missing symbol key with no default fails with the key error |
| PaperBackends.PlaceOrderByAsset | examples/reversion/paper.py:300-365 | `order` with the position looked up under the asset: in compatible mode, the order is split against the amount the table holds for that asset |
| PaperBackends.AsWrittenIgnoresPosition | examples/reversion/paper.py:299-317 | since the table is keyed by asset, the lookup by symbol string never finds one: every compatible order fails or is placed against the default amount, whatever is held |
| PaperBackends.FlipNotSplitAsWritten | examples/reversion/paper.py:304-317 | short 10 and buy 15: as written nothing waits; looked up by asset, 5 shares wait for the fill of the closing order |
| PaperBackends.TradeUpdateFails | examples/reversion/paper.py:163-184 | for either lookup rule, the handler fails exactly on a terminal event for an id it does not track as open, and the failure names that id |
| PaperBackends.TradeUpdate | examples/reversion/paper.py:160-184 | for either lookup rule: a non-terminal event stores the converted order as open and nothing else; a terminal one that succeeds stops tracking the id as open or waiting |
| PaperBackends.TradeUpdateAgrees | examples/reversion/paper.py:163-184 | for either lookup rule, the paper handler leaves the same tables as the Alpaca handler, with the held amount read from the position table under that rule's key |
| PaperBackends.FillAgrees | examples/reversion/paper.py:166-180 | for either lookup rule, the same agreement for the fill of an order whose rest is waiting |
| PaperBackends.OtherAgrees | examples/reversion/paper.py:173-184 | for either lookup rule, the same agreement for every other event |
| PaperBackends.GetLastTradedDt | examples/reversion/paper.py:439-441 | a paper account always refuses `get_last_traded_dt` |
| PaperBackends.SpotBars | examples/reversion/paper.py:464-478 | one value per symbol: the requested field (`close` for `price`) of its latest bar, or missing when it has no bars |
| PaperBackends.SymbolsOf | examples/reversion/paper.py:453-456 | the symbols of the assets, one per asset and in order |
| PaperBackends.GetSpotValue | examples/reversion/paper.py:443-462 | an unknown field fails; `last_traded` in compatible mode is refused; otherwise it succeeds with the latest bars, one value for a single asset and a list for several |
| PaperBackends.PaperBackend.constructor | examples/reversion/paper.py:121-137 | a new backend tracks no open and no waiting orders |
| PaperBackends.PaperBackend.Order | examples/reversion/paper.py:300-365 | `order` leaves the tables and returns what the placing rule as written gives, with the position looked up by symbol; a failed lookup changes nothing |
| PaperBackends.PaperBackend.HandleTradeUpdate | examples/reversion/paper.py:160-184 | the handler, as one atomic step, leaves the tables and the error the trade-update rule gives as written, re-placing a waiting order with the position looked up by symbol |
| Algorithms.Pairs | pylivetrader/algorithm.py:409-416 | the positional arguments of `record` taken two at a time as (name, value), an odd last one dropped |
| Algorithms.WriteAll | pylivetrader/algorithm.py:417-418 | writing the pairs adds exactly their names to the recorded variables |
| Algorithms.WriteAllLast | pylivetrader/algorithm.py:417-418 | a name keeps the value of its last write |
| Algorithms.WriteAllUntouched | pylivetrader/algorithm.py:417-418 | a name no pair writes keeps the value it had |
| Algorithms.KeywordPairs | pylivetrader/algorithm.py:417 | the keyword arguments, in order, as (name, value) pairs |
| Algorithms.RecordedKeyword | pylivetrader/algorithm.py:417-418 | a keyword argument given once always wins over the positional pairs |
| Algorithms.RecordedPositional | pylivetrader/algorithm.py:409-418 | a positional name not repeated later and not given as a keyword keeps the value that follows it |
| Algorithms.RecordedOddIgnored | pylivetrader/algorithm.py:409-416 | a trailing odd positional argument changes nothing |
| Algorithms.Algorithm.constructor | pylivetrader/algorithm.py:121-210 | a new algorithm is not initialised, has no controls and nothing recorded, and both caches are stale |
| Algorithms.Algorithm.GetPortfolio | pylivetrader/algorithm.py:505-510 | the backend is asked only when the cache is stale; its answer is kept and the flag cleared; nothing else changes |
| Algorithms.Algorithm.GetAccount | pylivetrader/algorithm.py:512-517 | the same caching for the account, on its own flag |
| Algorithms.Algorithm.OnDtChanged | pylivetrader/algorithm.py:519-522 | the new time is stored and both caches are marked stale |
| Algorithms.Algorithm.RegisterTradingControl | pylivetrader/algorithm.py:915-921 | once initialised the call fails and the controls stay; before, the control is appended |
| Algorithms.Algorithm.RegisterAccountControl | pylivetrader/algorithm.py:884-890 | the same for account controls |
| Algorithms.Algorithm.Initialize | pylivetrader/algorithm.py:216-228 | the user's `initialize` registers its trading controls, and only then is the algorithm marked initialised |
| Algorithms.Algorithm.BeforeTradingStart | pylivetrader/algorithm.py:236-248 | without a callback nothing happens; otherwise the flag is set around the callback and cleared after it, but stays set when the callback raises |
| Algorithms.Algorithm.Record | pylivetrader/algorithm.py:395-418 | the recorded variables become the positional pairs then the keyword arguments written over the old ones |
| Algorithms.Algorithm.Order | pylivetrader/algorithm.py:292-321 | the order plan decides what is submitted or raised; a submission's answer gives the returned id or nothing; reading the portfolio leaves it cached |
| Algorithms.NoControlsAfterInitialize | pylivetrader/algorithm.py:915-921 | after `initialize`, registering a control fails and the controls are those registered before |
| Algorithms.PortfolioCachedPerBar | pylivetrader/algorithm.py:505-522 | within one bar the backend's portfolio is read once; after the time moves on it is read afresh |
| OrderRules.Trunc | pylivetrader/algorithm.py:783 | `int(x)` is the integer part of `x`, rounded toward zero |
| OrderRules.RoundOrder | pylivetrader/algorithm.py:773-783 | the count is within 0.0001 of the amount, or else the amount truncated toward zero |
| OrderRules.RoundOrderNear | pylivetrader/algorithm.py:773-783 | an integer within the tolerance is the rounded count, and the only one |
| OrderRules.RoundOrderFar | pylivetrader/algorithm.py:773-783 | away from every integer the count is truncated: smaller in size, never of the other sign |
| OrderRules.RoundOrderExamples | pylivetrader/algorithm.py:781 | 3.9999 gives 4, 5.5 gives 5 and -5.5 gives -5 |
| OrderRules.ConvertOrderParams | pylivetrader/algorithm.py:785-804 | a given style is kept, and passing any price with it fails the assertion, even a zero price |
| OrderRules.ConvertCarriesPrices | pylivetrader/algorithm.py:797-804 | without a style, the style carries exactly the non-zero limit and stop prices given; with neither it is a market order |
| OrderRules.ValidateOrderParams | pylivetrader/algorithm.py:738-771 | ordering before initialisation fails first, then a limit and then a stop price given with a style; the order passes exactly when none of these hold and every trading control accepts it |
| OrderRules.CanOrderAsset | pylivetrader/algorithm.py:859-879 | a non-asset is refused with the error; an asset without an auto-close date can be ordered; the answer is false exactly past the earlier of the end and auto-close dates |
| OrderRules.CalculateOrder | pylivetrader/algorithm.py:720-736 | the count is the rounded amount, and the call succeeds exactly when the validation and the conversion both do |
| OrderRules.PlanOrderAdmitted | pylivetrader/algorithm.py:302-321 | once admitted: nothing is ordered for a zero count; the overflow error comes exactly above the share limit; otherwise the rounded count is submitted in the converted style |
| OrderRules.LargeSaleSubmitted | pylivetrader/algorithm.py:311-315 | a sale of any size passes the overflow check, since only positive counts are compared with the limit |
| OrderRules.ValueAmount | pylivetrader/algorithm.py:814-842 | an untradable asset and a missing last price are the two errors; every other case succeeds |
| OrderRules.ValueAmountBuysValue | pylivetrader/algorithm.py:834-842 | a price that is zero within the tolerance orders nothing; otherwise the shares times the price are the value asked for |
| OrderRules.PercentAmount | pylivetrader/algorithm.py:844-846 | the shares bought with the given fraction of the portfolio value |
| OrderRules.TargetAmount | pylivetrader/algorithm.py:848-853 | without a position the change is the target itself |
| OrderRules.TargetAmountReachesTarget | pylivetrader/algorithm.py:848-853 | the held amount plus the change is exactly the target |
| OrderRules.SubmissionObeysRules | pylivetrader/algorithm.py:294-321 | whatever the request (`order`, `order_value`, `order_percent`, `order_target*`), a submitting plan is for an asset, outside `before_trading_start` and after initialisation, with a non-zero count within the limit, validated, and in the given style |
| OrderRules.PlanOrderSubmits | pylivetrader/algorithm.py:294-321 | the same facts for `order`, with the count the rounded amount |
| OrderRules.PlanOrder | pylivetrader/algorithm.py:292-321 | `order` inside `before_trading_start` fails with its error; a submission is of an asset, for that asset, of a non-zero count no larger than the overflow bound |
| OrderRules.PlanRequest | pylivetrader/algorithm.py:292-321 | the same two facts for every sizing request; share and value requests also fail inside `before_trading_start` |
| OrderRules.NoOrdersBeforeTradingStart | pylivetrader/algorithm.py:292-293 | during `before_trading_start` no request submits, and `order` and `order_value` fail with that error before looking at their arguments |
| OrderRules.NoOrdersDuringInitialize | pylivetrader/algorithm.py:750-753 | before initialisation no request submits; an order that gets as far as validation fails with the initialisation error |
| OrderRules.SizingExamples | pylivetrader/algorithm.py:555-621 | on a portfolio worth 1000 with a last price of 100 and no position: ten percent buys one share, twenty percent two, and a target of one share or ten percent one |
| OrderGrouping.Insert | pylivetrader/algorithm.py:670-672 | inserting into a sorted list keeps it sorted by time, adds exactly the one order, and keeps it behind every order no later than it (a stable insertion) |
| OrderGrouping.InsertBehind | pylivetrader/algorithm.py:670-672 | the step of the insertion past an order no later than the new one keeps all four facts |
| OrderGrouping.SortByDt | pylivetrader/algorithm.py:670-672 | `sorted(..., key=lambda o: o.dt)` returns the same orders, as a multiset, oldest first |
| OrderGrouping.OrdersOf | pylivetrader/algorithm.py:673-682 | one asset's orders are all for that asset and no more than all the orders |
| OrderGrouping.OrdersOfBounded | pylivetrader/algorithm.py:673-682 | picking one asset's orders keeps a time bound that held for all of them |
| OrderGrouping.OrdersOfSorted | pylivetrader/algorithm.py:673-682 | picking one asset's orders keeps them sorted |
| OrderGrouping.OrdersOfCounts | pylivetrader/algorithm.py:673-682 | picking one asset's orders keeps exactly those orders, each as often as it occurs |
| OrderGrouping.OrdersOfEmpty | pylivetrader/algorithm.py:682 | an asset gets no orders exactly when none is for it |
| OrderGrouping.GetAllOrders | pylivetrader/algorithm.py:652-682 | for no asset, the map of the sorted orders grouped by asset; for an asset, its orders oldest first, or the empty list |
| OrderGrouping.GroupOrders | pylivetrader/algorithm.py:669-677 | the loop that appends each order to its asset's list, making the list when missing, builds exactly the grouping |
| OrderGrouping.GroupedSnoc | pylivetrader/algorithm.py:674-677 | appending an order extends its asset's list and leaves the other lists alone |
| OrderGrouping.GetAllOrdersKeys | pylivetrader/algorithm.py:669-682 | an asset has a list exactly when one of the orders is for it, and an asset without orders gets the empty list |
| OrderGrouping.GetAllOrdersGroups | pylivetrader/algorithm.py:659-682 | each asset's list is exactly that asset's orders, oldest first, each as often as it occurs |
| ApiContext.ContextSlot.constructor | pylivetrader/misc/api_context.py:23-31 | a fresh thread-local holds no algorithm |
| ApiContext.ContextSlot.Set | pylivetrader/misc/api_context.py:26-27 | `set_context` stores the algorithm |
| ApiContext.LiveTraderApi.constructor | pylivetrader/misc/api_context.py:36-38 | the block keeps its algorithm and has saved nothing yet |
| ApiContext.LiveTraderApi.Enter | pylivetrader/misc/api_context.py:40-42 | entering saves the slot's previous content and installs the algorithm |
| ApiContext.LiveTraderApi.Exit | pylivetrader/misc/api_context.py:44-45 | leaving puts the saved content back |
| ApiContext.Nested | pylivetrader/misc/api_context.py:34-45 | two nested blocks unwind last in, first out; after both the slot holds what it held before |
| ApiContext.Redirect | pylivetrader/misc/api_context.py:48-69 | with no algorithm in the slot, the call fails with the message naming the method; otherwise it forwards to the same-named method of the installed algorithm |
| ApiContext.Guarded | pylivetrader/misc/api_context.py:72-157 | a guarded call gives the guard's exception exactly when the guard raises, and otherwise the wrapped method's own result |
| ApiContext.GuardsComplement | pylivetrader/misc/api_context.py:72-157 | of each pair of guards exactly one lets a call through, returning its value, while the other raises its own error; `require_initialized` lets calls through exactly after initialisation and `disallowed_in_before_trading_start` exactly outside it |
| StateStores.StorageEngine.constructor | pylivetrader/statestore/__init__.py:29-31 | an engine over what its medium already holds |
| StateStores.StorageEngine.Save | pylivetrader/statestore/__init__.py:33-66 | the whole state replaces whatever was stored |
| StateStores.Context.constructor | pylivetrader/statestore/__init__.py:89-95 | the context is the attribute dictionary that is saved and restored |
| StateStores.SavedState | pylivetrader/statestore/__init__.py:89-97 | the saved state holds exactly the attributes not excluded, each with its value, plus the checksum under its key |
| StateStores.Restored | pylivetrader/statestore/__init__.py:105-117 | a missing or different checksum is the mismatch error; otherwise exactly the loaded entries but the checksum are set |
| StateStores.SaveLoadRoundTrip | pylivetrader/statestore/__init__.py:89-117 | a state saved under a checksum loads back under it as exactly the saved attributes, and fails under any other checksum |
| StateStores.StateStore.constructor | pylivetrader/statestore/__init__.py:81-87 | the store keeps its engine |
| StateStores.StateStore.Save | pylivetrader/statestore/__init__.py:89-99 | the loop builds the state attribute by attribute, and the engine then holds exactly the saved state |
| StateStores.StateStore.Load | pylivetrader/statestore/__init__.py:101-117 | nothing happens when the engine has nothing to load; a checksum mismatch is the error and sets nothing; otherwise every stored attribute but the checksum is set over the context's own |
| StateStores.NewStateStore | pylivetrader/statestore/__init__.py:81-87 | a non-empty path gives a new file store over that path; else the given engine; with neither, the `ValueError` |
| StateStores.SaveThenLoad | pylivetrader/statestore/__init__.py:89-117 | what one run saves, a new context of the same algorithm loads back over the attributes it already had |
| Assets.NewAsset | pylivetrader/assets/assets.py:5-16 | the sid's hash is taken once, at construction; the given attributes are kept and the five dates and the full exchange name start as `None` |
| Assets.HashFollowsSid | pylivetrader/assets/assets.py:7-19 | assets with the same sid hash alike, whatever their other attributes |
| Assets.StrShowsSymbol | pylivetrader/assets/assets.py:21-25 | the bracketed symbol appears in `str` exactly when the symbol is neither `None` nor empty |
| Assets.Show | pylivetrader/assets/assets.py:32 | `{}` of an attribute: its text, or `None` when unset |
| Assets.Str | pylivetrader/assets/assets.py:21-25 | the text starts with the type name, a parenthesis and the sid, and ends with a closing parenthesis |
| Assets.ReprParams | pylivetrader/assets/assets.py:29-35 | `repr` lists at most the three attributes |
| Assets.Repr | pylivetrader/assets/assets.py:27-37 | the text starts with `Asset(`, the sid and a comma, and ends with a closing parenthesis |
| Assets.ReprListsPresent | pylivetrader/assets/assets.py:27-37 | an attribute is listed as `name=value` exactly when it is neither `None` nor empty, in the order symbol, asset name, exchange |
| Assets.ReprWithoutAttributes | pylivetrader/assets/assets.py:37 | with nothing to list, `repr` still writes the separator after the sid |
| Assets.ReprOfTestAsset | tests/test_assets/test_assets.py:6-10 | the test asset's `repr` is `Asset(asset-id, symbol=AAPL, exchange=NSDQ)` |
| Assets.StrOfTestAsset | tests/test_assets/test_assets.py:17 | the test asset's `str` is `Asset(asset-id [AAPL])` |
| Assets.ToDict | pylivetrader/assets/assets.py:39-50 | `to_dict` has exactly the nine attribute names, each holding that attribute |
| Assets.ToDictDetermines | pylivetrader/assets/assets.py:39-50 | equal dictionaries mean equal attributes; only the class and the hash are lost |
| Finders.CacheOf | pylivetrader/assets/finder.py:36-39 | the cache holds each sid once |
| Finders.SidItems | pylivetrader/assets/finder.py:36-39 | each equity is paired with its sid, in the backend's order |
| Finders.CacheOfHolds | pylivetrader/assets/finder.py:36-39 | a sid is cached exactly when some equity has it, and it holds the last equity with that sid |
| Finders.RetrieveAllIn | pylivetrader/assets/finder.py:57-95 | without `default_none`, the missing sids are raised together, each once; otherwise each position gets its asset, or `None` when missing |
| Finders.CollectHits | pylivetrader/assets/finder.py:81-90 | the first loop collects exactly the missing sids, or none under `default_none`; with no failures every sid has its hit |
| Finders.MissingSnoc | pylivetrader/assets/finder.py:83-88 | one more sid adds itself to the failures exactly when the cache lacks it |
| Finders.ListOf | pylivetrader/assets/finder.py:93 | `list(failures)` has each element of the set once |
| Finders.RetrieveAssetIn | pylivetrader/assets/finder.py:97-107 | the cached asset, or `SidsNotFound` naming the sid |
| Finders.RetrieveEquitiesIn | pylivetrader/assets/finder.py:109-138 | a map over exactly the sids asked for, each to its cached asset; any miss is `EquitiesNotFound` naming all of them |
| Finders.OwnerItems | pylivetrader/assets/finder.py:43-48 | each cached asset is paired with its split symbol, in the cache's order |
| Finders.FuzzyItems | pylivetrader/assets/finder.py:50-55 | each owner is paired with its two symbol parts joined, in the map's order |
| Finders.LookupSymbol | pylivetrader/assets/finder.py:143-150 | a `None` symbol is refused before any lookup |
| Finders.LookupStrictOwner | pylivetrader/assets/finder.py:152-163 | the strict lookup succeeds exactly when some cached asset's symbol splits like the one asked for, and returns such an asset; a miss names the symbol |
| Finders.Ownership | pylivetrader/assets/finder.py:43-48 | no two entries of the ownership table share a split symbol, since later assets overwrite earlier ones |
| Finders.LookupStrict | pylivetrader/assets/finder.py:152-163 | a miss raises the not-found error naming the symbol; a hit is the asset the table holds under its split symbol |
| Finders.OwnedFromItems | pylivetrader/assets/finder.py:45-48 | every entry of the ownership map is one of the owner items |
| Finders.LookupFuzzyOwner | pylivetrader/assets/finder.py:165-174 | the fuzzy lookup returns a cached asset whose joined symbol parts are those of the upper-cased symbol; a miss names the upper-cased symbol |
| Finders.LookupFuzzy | pylivetrader/assets/finder.py:165-174 | a miss raises the not-found error naming the upper-cased symbol; a hit is the asset the fuzzy table holds under its joined parts |
| Finders.LookupSymbolsIn | pylivetrader/assets/finder.py:176-186 | one result per symbol, in order, each the lookup of that symbol; a symbol seen before comes from the memo, so each distinct symbol is looked up once |
| Finders.MemoLookups | pylivetrader/assets/finder.py:177-186 | the memoised loop, for any lookup: the first failure is raised, and each symbol is looked up once, on first sight |
| Finders.ElementsSnoc | pylivetrader/assets/finder.py:180-185 | appending a symbol adds it to those seen |
| Finders.OneEquityFinder | tests/test_assets/test_finder.py:7-19 | the test's finder retrieves its one equity by sid and refuses `invalid` with `SidsNotFound` |
| Finders.AssetFinder.constructor | pylivetrader/assets/finder.py:25-26 | a new finder has no cache |
| Finders.AssetFinder.GetCache | pylivetrader/assets/finder.py:31-41 | the cache as it is, or built now from the backend's equities and kept |
| Finders.AssetFinder.ClearCache | pylivetrader/assets/finder.py:28-29 | the cache is dropped; dropping an absent cache fails |
| Finders.AssetFinder.RetrieveAll | pylivetrader/assets/finder.py:57-95 | `retrieve_all` over the cache, built first if absent |
| Finders.AssetFinder.RetrieveAsset | pylivetrader/assets/finder.py:97-107 | `retrieve_asset` over the cache, built first if absent |
| Finders.AssetFinder.RetrieveEquities | pylivetrader/assets/finder.py:109-138 | `retrieve_equities` over the cache, built first if absent |
| Finders.AssetFinder.LookupSymbolOf | pylivetrader/assets/finder.py:143-174 | a `None` symbol is refused before the cache is touched; otherwise the lookup over the cache, built first if absent |
| Finders.AssetFinder.LookupSymbols | pylivetrader/assets/finder.py:176-186 | one lookup result per symbol over the cache, or the first failure |
| Finders.AssetFinder.Sids | pylivetrader/assets/finder.py:188-197 | the cached sids, in the cache's order |
| Finders.SidsRetrieve | pylivetrader/assets/finder.py:188-193 | the cached sids are distinct, and each retrieves its own asset |
| Sentinels.Sentinel.constructor | pylivetrader/misc/sentinel.py:44-48 | the one instance of its class carries its name and doc string |
| Sentinels.Sentinel.Repr | pylivetrader/misc/sentinel.py:53-54 | `sentinel('name')`: the name between the two fixed parts, twelve characters longer than it |
| Sentinels.Sentinel.Copy | pylivetrader/misc/sentinel.py:62-63 | `__copy__` returns the sentinel itself |
| Sentinels.Sentinel.DeepCopy | pylivetrader/misc/sentinel.py:59-60 | `__deepcopy__` returns the sentinel itself, whatever the memo |
| Sentinels.Sentinel.Reduce | pylivetrader/misc/sentinel.py:56-57 | `__reduce__` gives the name and doc that rebuild it through `sentinel` |
| Sentinels.SentinelCache.constructor | pylivetrader/misc/sentinel.py:77 | the table starts empty |
| Sentinels.DocRepr | pylivetrader/misc/sentinel.py:38-39 | `%r` of a docstring: `None`, or the text in single quotes |
| Sentinels.ConflictMessage | pylivetrader/misc/sentinel.py:34-42 | the conflict error starts by naming the quoted sentinel name, followed by more text |
| Sentinels.SentinelCache.Get | pylivetrader/misc/sentinel.py:25-74 | a cached name with the same doc gives the cached object; a different doc is the conflict error naming both docs, with the table unchanged; a new name gives a new sentinel, now cached |
| Sentinels.SameObjectTwice | pylivetrader/misc/sentinel.py:25-63 | a second request with the same doc, the sentinel rebuilt from `__reduce__`, its copy and its deep copy are all the identical object |
| Errors.QuotedAll | pylivetrader/errors.py:32 | each sid is shown quoted, as a Python list of strings prints it |
| Errors.Quoted | pylivetrader/errors.py:32 | the text between single quotes, two characters longer |
| Errors.ListRepr | pylivetrader/errors.py:32 | the text of a list is bracketed, and `[]` for an empty one |
| Errors.Plural | pylivetrader/errors.py:21-22 | the plural form is used exactly for two or more sids |
| Errors.Message | pylivetrader/errors.py:13-54 | formatting fails exactly for a sid error with no sid at all, since the singular templates index the first sid |
| Errors.JoinContainsParts | pylivetrader/errors.py:32 | every item of a printed list occurs in the printed text |
| Errors.ListReprContains | pylivetrader/errors.py:32 | a listed sid occurs in any message that embeds the printed list |
| Errors.QuotedContains | pylivetrader/errors.py:32 | a quoted sid contains the sid |
| Errors.EmbedContains | pylivetrader/errors.py:32 | text around a part still contains what the part contains |
| Errors.MessageNamesSids | pylivetrader/errors.py:19-42 | with two or more sids the message names every one; with one, it names the first, in the sid or equity wording of the class |
| Errors.ContainsTransitive | pylivetrader/errors.py:32 | containment of text is transitive |
| Errors.SymbolMessageNamesSymbol | pylivetrader/errors.py:45-46 | the `SymbolNotFound` message quotes the symbol |
| BarDatas.Items | pylivetrader/data/bardata.py:35-58 | a single asset or field is wrapped into a one-element list, and a list is taken as it is |
| BarDatas.CurrentMinuteOf | pylivetrader/data/bardata.py:420-444 | the datetime; while adjusting, the previous market minute; in daily mode, the session label of that; the calendar cannot be asked about an unset datetime |
| BarDatas.BarData.CurrentMinute | pylivetrader/data/bardata.py:420-444 | without a time, adjusting or daily mode fails; with neither it is the time itself, and adjusting in minute mode moves to the previous market minute |
| BarDatas.Row | pylivetrader/data/bardata.py:62-63 | the (asset, field) pairs of one asset, in field order |
| BarDatas.FetchArgsLength | pylivetrader/data/bardata.py:60-63 | one fetch per (asset, field) pair |
| BarDatas.FetchArgsEmpty | pylivetrader/data/bardata.py:60-63 | nothing is fetched exactly when there is no asset or no field |
| BarDatas.FetchArgsPrefix | pylivetrader/data/bardata.py:61-63 | the fetches of the first assets come first |
| BarDatas.FetchPairs | pylivetrader/data/bardata.py:60-63 | the nested loops list exactly the pairs, asset-major |
| BarDatas.FetchArgsAt | pylivetrader/data/bardata.py:60-63 | the pair of asset `i` and field `j` is fetch number `i * |fields| + j` |
| BarDatas.FetchArgs | pylivetrader/data/bardata.py:60-63 | every fetched pair is one of the assets with one of the fields |
| BarDatas.MulSucc | pylivetrader/data/bardata.py:61-63 | one more asset adds one more row of fetches |
| BarDatas.ShapeValues | pylivetrader/data/bardata.py:87-122 | a scalar for one asset and one field, a series by asset or by field when one side is a list, a frame of one column per field when both are; every value is the fetch of its own asset and field |
| BarDatas.Shape | pylivetrader/data/bardata.py:87-122 | one asset and one field give one value, a list on one side a series as long as that list, and two lists a table of one column per field, each as long as the asset list |
| BarDatas.CanTradeForAsset | pylivetrader/data/bardata.py:303-354 | an asset the broker marks untradable cannot be traded; in minute mode neither can one whose exchange is closed at that minute (the datetime, or the next open); every other asset can |
| BarDatas.ExchangeCheckMinute | pylivetrader/data/bardata.py:328-333 | the exchange is checked at the minute itself when the market is open then, and at the next open otherwise |
| BarDatas.IsStaleForAsset | pylivetrader/data/bardata.py:395-415 | not stale when the asset is not alive on the day or has volume now; otherwise stale exactly when it has ever traded |
| BarDatas.AllOk | pylivetrader/data/bardata.py:291-296 | the answers for every asset, in order, or an error when one fails |
| BarDatas.BarData.constructor | pylivetrader/data/bardata.py:41-51 | daily mode exactly for `daily`; not adjusting and no datetime yet |
| BarDatas.BarData.HandleNonMarketMinutes | pylivetrader/data/bardata.py:27-32 | the block runs with adjusting on, and adjusting is off afterwards whether or not the block raised |
| BarDatas.BarData.CurrentOf | pylivetrader/data/bardata.py:53-122 | the pairs are built asset-major, each read through `get_adjusted_value` while adjusting and `get_spot_value` otherwise at the current minute, and the values are shaped by which sides are lists; with no pair the minute is never asked for |
| BarDatas.BarData.CanTrade | pylivetrader/data/bardata.py:245-296 | an error exactly when adjusting with no datetime (even for no asset) or when some asset's rule fails; otherwise one answer per asset, each the per-asset rule with the current datetime |
| BarDatas.BarData.IsStale | pylivetrader/data/bardata.py:356-393 | an error exactly when there is no datetime and either adjusting is on or some asset is asked about; otherwise one answer per asset, each the per-asset rule with the alive check at the datetime and the spot values read at the datetime, or at the current minute while adjusting |
| BarFrames.FieldOf | pylivetrader/testing/smoke/backend.py:294-300 | each of the five column names gives that column of the bar, and any other name none |
| BarFrames.Since | pylivetrader/testing/smoke/backend.py:133 | `df[dt:]` keeps exactly the bars at or after `dt`; on a time-ordered frame it is a slice (next rows) |
| BarFrames.UpTo | pylivetrader/testing/smoke/backend.py:303 | `df[:now]` keeps exactly the bars at or before `now`; on a time-ordered frame it is a slice (next rows) |
| BarFrames.SinceAll | pylivetrader/testing/smoke/backend.py:133 | a frame whose bars are all at or after `dt` is kept whole |
| BarFrames.SinceIsSuffix | pylivetrader/testing/smoke/backend.py:133 | on a time-ordered frame `df[dt:]` is a suffix of the frame, so the kept bars stay in order and contiguous |
| BarFrames.UpToNone | pylivetrader/testing/smoke/backend.py:303 | a frame whose bars are all after `now` keeps nothing |
| BarFrames.UpToIsPrefix | pylivetrader/testing/smoke/backend.py:303 | on a time-ordered frame `df[:now]` is a prefix of the frame, so the kept bars stay in order and contiguous |
| BarFrames.MaxHigh | pylivetrader/testing/smoke/backend.py:36 | the highest high of a non-empty frame is one of its highs and no high exceeds it |
| BarFrames.MinLow | pylivetrader/testing/smoke/backend.py:50 | the lowest low of a non-empty frame is one of its lows and no low is below it |
| DataPortals.OhlcvField | pylivetrader/data/data_portal.py:91 | `price` is read from the `close` column and every other field from its own |
| DataPortals.RetryAsset | pylivetrader/data/data_portal.py:100-112 | for one asset, while its column is all missing and the counter is below 3, the bars are fetched again with the bar count times the counter: at most the remaining retries, with counts rising by one multiple each time |
| DataPortals.Requests | pylivetrader/data/data_portal.py:82-112 | the fetches for the first assets begin with the bar count asked for |
| DataPortals.RequestsStep | pylivetrader/data/data_portal.py:100-112 | the next asset's refetches follow those of the assets before, and read the bars the last fetch left |
| DataPortals.RequestsBound | pylivetrader/data/data_portal.py:100-112 | at most two refetches per asset, so at most `1 + 2 * |assets|` fetches in all |
| DataPortals.RetryAssetStops | pylivetrader/data/data_portal.py:102-103 | after one asset's loop, its column in the last bars has a present bar, or the two refetches were made |
| DataPortals.Tail | pylivetrader/data/data_portal.py:126 | `bars[-n:]` is the last `n` rows for positive `n`, every row for `n == 0` (since `-0` is `0`), and always a suffix |
| DataPortals.FFill | pylivetrader/data/data_portal.py:123 | forward filling keeps the length and every present bar, and leaves a bar missing exactly when no present bar comes at or before it |
| DataPortals.FFillLatest | pylivetrader/data/data_portal.py:123 | each gap takes the latest present bar before it |
| DataPortals.FFillSnoc | pylivetrader/data/data_portal.py:123 | one more bar: a present bar stays, a missing one repeats the filled bar before it |
| DataPortals.BFill | pylivetrader/data/data_portal.py:124 | backward filling keeps the length and every present bar, and leaves a bar missing exactly when no present bar comes at or after it |
| DataPortals.FillComplete | pylivetrader/data/data_portal.py:116-124 | forward then backward filling keeps every present bar and leaves no bar missing unless all were |
| DataPortals.Window | pylivetrader/data/data_portal.py:114-126 | one column per asset, in order |
| DataPortals.DataPortal.constructor | pylivetrader/data/data_portal.py:25-34 | the portal keeps its backend, calendar and mode, and memoises nothing yet |
| DataPortals.DataPortal.GetSpotValue | pylivetrader/data/data_portal.py:54-57 | the backend's spot value, with the portal's own compatibility flag passed on |
| DataPortals.DataPortal.GetAdjustedValue | pylivetrader/data/data_portal.py:39-52 | no adjustment: the spot value at the time given, the perspective time unused |
| DataPortals.DataPortal.GetLastTradedDt | pylivetrader/data/data_portal.py:36-37 | the backend's last traded time, whatever time and frequency are given |
| DataPortals.DataPortal.GetRealtimeBars | pylivetrader/data/data_portal.py:59-62 | the backend's bars for the key, now memoised under that key |
| DataPortals.DataPortal.CacheClear | pylivetrader/data/data_portal.py:64-65 | the memo is emptied |
| DataPortals.DataPortal.GetHistoryWindow | pylivetrader/data/data_portal.py:67-126 | the bar counts fetched are the first, then, in compatible mode only, each asset's refetches; the result is the window of the field's columns from the last fetch, filled for `price` when asked, trimmed to the bar count; exactly the fetched keys are memoised |
| DataPortals.DataPortal.RetryAll | pylivetrader/data/data_portal.py:100-112 | the compatible mode's loop over the assets makes exactly the fetches of the retry rule and ends with the bars of the last one |
| DataPortals.DataPortal.RetryFor | pylivetrader/data/data_portal.py:101-112 | one asset's `while` loop makes exactly the fetches of the retry rule and ends with the bars of the last one |
| DataPortals.KeysAppend | pylivetrader/data/data_portal.py:59-62 | the keys memoised by two runs of fetches together |
| DataPortals.KeysSnoc | pylivetrader/data/data_portal.py:59-62 | one more fetch memoises its own key |
| DataPortals.AdjustedIsSpot | pylivetrader/data/data_portal.py:39-57 | the adjusted value is the spot value whatever the perspective time, and both are the backend's, in the portal's mode |
| DataPortals.WindowLength | tests/test_data/test_data_portal.py:10-12 | a positive bar count no larger than the column gives that many rows per asset |
| SmokeBackends.Letter | pylivetrader/testing/smoke/backend.py:27 | `ascii_uppercase[d]` is the upper-case letter `d` places after `A` |
| SmokeBackends.Symbol | pylivetrader/testing/smoke/backend.py:22-30 | the symbol of the `n`-th fake equity is a non-empty upper-case word |
| SmokeBackends.SymbolValueOfSymbol | pylivetrader/testing/smoke/backend.py:22-30 | reading a symbol back in bijective base 26 gives its number |
| SmokeBackends.SymbolOfSymbolValue | pylivetrader/testing/smoke/backend.py:22-30 | every non-empty upper-case word is the symbol of its number, so the naming is onto |
| SmokeBackends.SymbolInjective | pylivetrader/testing/smoke/backend.py:22-30 | distinct numbers get distinct symbols |
| SmokeBackends.SymbolExamples | pylivetrader/testing/smoke/backend.py:22-30 | 0 is `A`, 25 is `Z`, 26 is `AA`, 701 is `ZZ` and 702 is `AAA` |
| SmokeBackends.Reversed | pylivetrader/testing/smoke/backend.py:30 | `reversed(buf)` has the same letters in the opposite order |
| SmokeBackends.SymbolStep | pylivetrader/testing/smoke/backend.py:25-29 | the last letter of a symbol is the number modulo 26, and what precedes it is the symbol of the quotient less one |
| SmokeBackends.SymbolValue | pylivetrader/testing/smoke/backend.py:22-30 | a one-letter name is exactly a value below 26 |
| SmokeBackends.BufferStep | pylivetrader/testing/smoke/backend.py:24-29 | one turn of the loop keeps what is left plus the reversed buffer the same |
| SmokeBackends.ReversedSnoc | pylivetrader/testing/smoke/backend.py:28-30 | a letter appended to the buffer comes first once reversed |
| SmokeBackends.NumToSymbol | pylivetrader/testing/smoke/backend.py:22-30 | the loop gives the symbol of a non-negative number, and the empty string for a negative one |
| SmokeBackends.UniverseSymbols | pylivetrader/testing/smoke/backend.py:270-280 | the universe holds one symbol per equity, the `i`-th equity's the symbol of `i`, all distinct |
| SmokeBackends.CheckFill | pylivetrader/testing/smoke/backend.py:33-63 | with no bar there is no last close; a buy fills exactly when its limit, if any, is at or above the last close and its stop, if any, was reached by some high; any other amount mirrors this with the lows |
| SmokeBackends.BookValueRemove | pylivetrader/testing/smoke/backend.py:102-140 | removing an asset takes its position's cost off the book value |
| SmokeBackends.BookValueSnoc | pylivetrader/testing/smoke/backend.py:124-140 | adding a position at the end adds its cost to the book value |
| SmokeBackends.DivTimes | pylivetrader/testing/smoke/backend.py:120-121 | a quotient times its non-zero divisor is the dividend |
| SmokeBackends.MovedCost | pylivetrader/testing/smoke/backend.py:120-123 | the moved position holds the new amount and costs the old cost plus what the fill paid |
| SmokeBackends.Moved | pylivetrader/testing/smoke/backend.py:120-123 | the position holds the new amount, last sold now, and keeps every other field but its cost |
| SmokeBackends.Settle | pylivetrader/testing/smoke/backend.py:112-115 | cash and buying power pay the price times the amount (a sale brings them in), and the account's cash follows the portfolio's |
| SmokeBackends.Fill | pylivetrader/testing/smoke/backend.py:98-124 | `_fill` as intended: a fill that would make the position negative changes no position and no money; otherwise cash and buying power pay the price times the amount and the account's cash follows |
| SmokeBackends.FillAsWritten | pylivetrader/testing/smoke/backend.py:98-124 | `_fill` as written: the order is gone; a fill that would make the position negative drops the position and changes no money; otherwise cash and buying power pay the price times the amount and the account's cash follows |
| SmokeBackends.FillAsWrittenVersusFill | pylivetrader/testing/smoke/backend.py:101-111 | the fill as written and the intended fill agree unless the fill is refused, when they differ only in the written one dropping the position |
| SmokeBackends.FillWithOrders | pylivetrader/testing/smoke/backend.py:101 | by either fill rule, the filled order is removed, every other order is kept, and ids and assets stay distinct |
| SmokeBackends.FillShapeOrders | pylivetrader/testing/smoke/backend.py:101 | a fill deletes its own order |
| SmokeBackends.FillShapeClosed | pylivetrader/testing/smoke/backend.py:102-118 | a fill that closes the position leaves the other positions |
| SmokeBackends.FillShapeOpen | pylivetrader/testing/smoke/backend.py:102-124 | a fill that leaves shares puts the moved position back at the end |
| SmokeBackends.ClosingArith | pylivetrader/testing/smoke/backend.py:112-118 | closing a position: cash takes the proceeds and the book loses the cost |
| SmokeBackends.OpenArith | pylivetrader/testing/smoke/backend.py:112-124 | a fill that leaves shares: cash pays what the book gains |
| SmokeBackends.FillOrders | pylivetrader/testing/smoke/backend.py:101 | a fill deletes its order and only that one, and order ids stay distinct |
| SmokeBackends.FillPositions | pylivetrader/testing/smoke/backend.py:102-124 | for the intended fill: no other asset's position changes; a refused fill keeps the positions, a closed position is gone, an open one holds the new amount, last sold now, with its cost the old cost plus what was paid |
| SmokeBackends.FillKeepsValue | pylivetrader/testing/smoke/backend.py:98-141 | for the intended fill, cash plus book value: kept by a refused fill and by one that leaves shares; closing a position adds the sale's proceeds less what the shares cost |
| SmokeBackends.KeepsValueOpen | pylivetrader/testing/smoke/backend.py:112-124 | a fill that leaves shares keeps cash plus book value |
| SmokeBackends.KeepsValueClosed | pylivetrader/testing/smoke/backend.py:112-118 | a fill that closes the position changes cash plus book value by the proceeds less the cost |
| SmokeBackends.ClosedBook | pylivetrader/testing/smoke/backend.py:102-118 | closing a position takes its cost off the book |
| SmokeBackends.FillAsWrittenDropsPosition | pylivetrader/testing/smoke/backend.py:101-111 | as written, a sale of more than is held deletes the order, keeps the cash, and loses the whole position with its cost |
| SmokeBackends.FillShortSaleExample | pylivetrader/testing/smoke/backend.py:101-111 | holding 5 shares at 10 and selling 10: as written the 5 shares vanish; the intended fill keeps them |
| SmokeBackends.FillPassKeeps | pylivetrader/testing/smoke/backend.py:130-136 | a pass, by either fill rule, keeps the ids and assets distinct and never adds or changes an order |
| SmokeBackends.FillPass | pylivetrader/testing/smoke/backend.py:130-136 | a pass raises exactly when one of the snapshot's orders has no bars to check its fill against |
| SmokeBackends.FillPassDeletes | pylivetrader/testing/smoke/backend.py:130-136 | a pass that completes, by either fill rule, deletes exactly the snapshot's orders that pass their check and keeps every other order |
| SmokeBackends.RunPass | pylivetrader/testing/smoke/backend.py:129-136 | the loop over the snapshot taken before it starts is exactly the pass, by either fill rule |
| SmokeBackends.AfterProcess | pylivetrader/testing/smoke/backend.py:126-142 | by either fill rule: nothing happens at a time already processed; otherwise the pass runs, and a complete one then sets the positions value to the book value, the portfolio value to cash plus that, and the time; a pass that raised sets nothing else |
| SmokeBackends.AfterProcessOnce | pylivetrader/testing/smoke/backend.py:127-142 | by either fill rule, processing twice at the same time is processing once |
| SmokeBackends.AfterProcessOrders | pylivetrader/testing/smoke/backend.py:126-142 | by either fill rule, processing keeps the state well formed; a complete pass leaves exactly the orders whose check failed |
| SmokeBackends.AfterOrder | pylivetrader/testing/smoke/backend.py:176-191 | a zero amount places nothing and uses no number; otherwise the next number is the id and key, and the order is placed now, for the amount, at the style's prices with a zero price dropped; nothing else changes |
| SmokeBackends.AfterOrderAppends | pylivetrader/testing/smoke/backend.py:181-190 | the new order goes last, under a number no order had, and the state stays well formed |
| SmokeBackends.AfterCancelWellFormed | pylivetrader/testing/smoke/backend.py:193-195 | cancelling keeps the order numbers among those handed out |
| SmokeBackends.SmokeBackend.constructor | pylivetrader/testing/smoke/backend.py:72-90 | the cash is both the portfolio's cash and the buying power; nothing is held or open |
| SmokeBackends.SmokeBackend.SetState | pylivetrader/testing/smoke/backend.py:72-90 | the fields take the values of a state |
| SmokeBackends.SmokeBackend.ProcessOrders | pylivetrader/testing/smoke/backend.py:126-142 | the new state and whether the pass raised are those of the processing rule with the fill as written |
| SmokeBackends.SmokeBackend.Positions | pylivetrader/testing/smoke/backend.py:154-157 | the positions after processing with the fill as written, or nothing when processing raised |
| SmokeBackends.SmokeBackend.Orders | pylivetrader/testing/smoke/backend.py:168-171 | the open orders after processing with the fill as written, or nothing when processing raised |
| SmokeBackends.SmokeBackend.Order | pylivetrader/testing/smoke/backend.py:176-191 | the new state and the order are those of the order rule, placed at the time the fake data reports as last traded |
| SmokeBackends.SmokeBackend.CancelOrder | pylivetrader/testing/smoke/backend.py:193-195 | the order is removed if present, and nothing else changes |
| FakeBackends.TargetAsset | pylivetrader/testing/fake/backend.py:45 | an asset names itself; a symbol names what `api.symbol` finds, or nothing when the lookup raises |
| FakeBackends.SetPositionIn | pylivetrader/testing/fake/backend.py:43-51 | the asset's entry becomes a position with exactly the given fields, and no other entry changes; an unknown symbol raises and changes nothing |
| FakeBackends.SetPositionTwice | pylivetrader/testing/fake/backend.py:43-51 | setting a position twice in a row leaves the second |
| FakeBackends.Placed | pylivetrader/testing/fake/backend.py:68-81 | the new order is numbered by the incremented sequence, placed now, at the style's non-zero prices, with nothing filled, and open; a zero amount is accepted |
| FakeBackends.PlaceAppends | pylivetrader/testing/fake/backend.py:71-80 | the next number is unused, so storing the order under it appends it and keeps the numbering sound |
| FakeBackends.PlacedDistinct | pylivetrader/testing/fake/backend.py:71-78 | two successive orders never share a number |
| FakeBackends.CancelNumbered | pylivetrader/testing/fake/backend.py:83-85 | cancelling keeps the numbering sound |
| FakeBackends.Missing | pylivetrader/testing/fake/backend.py:121-124 | the missing assets are exactly the requested ones not cached, in the order requested |
| FakeBackends.NoneMissing | pylivetrader/testing/fake/backend.py:121-126 | nothing is missing once every requested asset is cached |
| FakeBackends.MissingOf | pylivetrader/testing/fake/backend.py:121-124 | the loop collects exactly the missing assets |
| FakeBackends.Stored | pylivetrader/testing/fake/backend.py:128-130 | every missing asset holds what the proxy returned, and the others keep theirs |
| FakeBackends.CacheAll | pylivetrader/testing/fake/backend.py:128-130 | the loop writes exactly those entries |
| FakeBackends.Restrict | pylivetrader/testing/fake/backend.py:131 | the answer holds exactly the requested assets, each with its cached bars |
| FakeBackends.RestrictTo | pylivetrader/testing/fake/backend.py:131 | the comprehension builds exactly that answer |
| FakeBackends.Fetched | pylivetrader/testing/fake/backend.py:120-130 | the proxy is asked, with 3000 bars, for the missing assets only and only when some are missing; cached entries stay, and every requested asset ends up cached |
| FakeBackends.FetchedTwice | pylivetrader/testing/fake/backend.py:120-131 | a second request for the same assets asks the proxy for nothing and changes nothing |
| FakeBackends.Trim | pylivetrader/testing/fake/backend.py:115 | one asset's frame: the bars up to now, then the last `bar_count` of them |
| FakeBackends.TrimAll | pylivetrader/testing/fake/backend.py:113-117 | the loop trims each requested asset's frame, in order |
| FakeBackends.FakeBackend.constructor | pylivetrader/testing/fake/backend.py:14-25 | the cash as buying power, nothing held, no order, both frequency caches empty |
| FakeBackends.FakeBackend.SetPosition | pylivetrader/testing/fake/backend.py:43-51 | the positions become those the rule gives; an unknown symbol changes nothing; nothing else changes |
| FakeBackends.FakeBackend.Order | pylivetrader/testing/fake/backend.py:68-81 | the placed order under the next number is appended and returned; nothing else changes |
| FakeBackends.FakeBackend.CancelOrder | pylivetrader/testing/fake/backend.py:83-85 | the order is deleted when present; nothing else changes |
| FakeBackends.FakeBackend.GetRealBars | pylivetrader/testing/fake/backend.py:120-131 | the bars of exactly the requested assets, the proxy asked for the missing ones and the cache updated as the rule gives; with no asset requested nothing is missing and the result is empty, whatever the frequency; an unknown frequency with assets to fetch raises before anything is fetched |
| FakeBackends.FakeBackend.GetBars | pylivetrader/testing/fake/backend.py:110-118 | per requested asset, its bars up to now and at most the last `bar_count` of them; an empty request fails to concatenate, and an unknown frequency with assets raises |
| Fixtures.CreateBars | pylivetrader/testing/fixtures.py:21-29 | one bar per time; row `i` opens and closes at `i + 10 + offset`, reaches `i + 15 + offset` and `i + 8 + offset`, and trades `100 + offset` |
| Fixtures.CreateBarsShape | pylivetrader/testing/fixtures.py:21-29 | every bar spans seven from low to high with the close strictly inside, each close is one above the one before, and the last close is `length - 1 + 10 + offset` |
| Fixtures.AssetIds | pylivetrader/testing/fixtures.py:41 | a missing or empty list of ids falls back to the three defaults, so there is always an id |
| Fixtures.EquitySymbol | pylivetrader/testing/fixtures.py:60 | the symbol has no dash and only characters of the upper-cased id |
| Fixtures.WithoutFrom | pylivetrader/testing/fixtures.py:60 | removing a character keeps only characters of the string |
| Fixtures.EquitySymbolExample | pylivetrader/testing/fixtures.py:60 | `asset-1` gets the symbol `ASSET1` |
| Fixtures.WithoutAbsent | pylivetrader/testing/fixtures.py:60 | removing a character that does not occur changes nothing |
| Fixtures.Equities | pylivetrader/testing/fixtures.py:56-65 | one equity per id, on NYSE, under the id's symbol; the start and end dates go to keyword arguments that the constructor ignores, so they stay `None` |
| Fixtures.EquitiesDistinct | pylivetrader/testing/fixtures.py:56-65 | distinct ids give distinct equities |
| Fixtures.BarItems | pylivetrader/testing/fixtures.py:46-48 | the `k`-th equity is paired with the bars built at offset `k` |
| Fixtures.BuildBars | pylivetrader/testing/fixtures.py:45-54 | the `enumerate` loop builds exactly the dictionary of those pairs |
| Fixtures.NewFixture | pylivetrader/testing/fixtures.py:34-54 | the fixture keeps the ids, defaulted as above |
| Fixtures.FixtureBars | pylivetrader/testing/fixtures.py:43-54 | with distinct ids, the `k`-th equity's minute and daily bars are those built at offset `k` |
| Fixtures.BarsAt | pylivetrader/testing/fixtures.py:46-48 | an equity not repeated later keeps the bars built for it |
| Fixtures.SpotOne | pylivetrader/testing/fixtures.py:79-85 | the field (`close` for `price`) of the asset's last bar; a missing asset, a field that is not a column and an empty frame raise, in that order |
| Fixtures.SpotList | pylivetrader/testing/fixtures.py:87-96 | a list of assets gives their values in order, or the first failing asset's error |
| Fixtures.GetSpotValue | pylivetrader/testing/fixtures.py:67-96 | one asset gives one value and a list gives a series, from the daily bars when `d` is in the frequency and the minute bars otherwise |
| Fixtures.GetBars | pylivetrader/testing/fixtures.py:98-116 | per asset, the last `bar_count` rows of its bars, all of them for a zero count; an asset without bars raises, and an empty list of assets fails to concatenate |
| Fixtures.AllOrders | pylivetrader/testing/fixtures.py:122-145 | always the same three open orders, whatever is asked: ids `o01`, `o02`, `o03`, amounts 2, 5 and 3, the first two for one asset and the third for another, the first placed earliest |
| Fixtures.DefaultFixtureFigures | tests/test_testing/test_fixtures.py:4-18 | the default fixture over two sessions of 390 minutes has three equities; the first one's last minute bar opens at 789 with volume 100; a minute request keeps 500 bars and a daily one the two sessions |
| MigrationTool.AddPylivetraderImports | pylivetrader/misc/migration_tool.py:28-36 | the API import header is put in front of the code |
| MigrationTool.AddPipelineliveImports | pylivetrader/misc/migration_tool.py:39-51 | the pipeline imports are put in front exactly when the code mentions `pipeline`; otherwise the code is returned unchanged |
| MigrationTool.DefineLogger | pylivetrader/misc/migration_tool.py:54-69 | the console logger set-up is put in front of the code |
| MigrationTool.CheckForUnsupportedModules | pylivetrader/misc/migration_tool.py:72-80 | the exception is raised with its message exactly when some line mentions both `import` and `optimize` |
| MigrationTool.StubDefines | pylivetrader/misc/migration_tool.py:8-15 | each stub holds its own `def` line |
| MigrationTool.AddMissingBaseMethods | pylivetrader/misc/migration_tool.py:83-95 | a stub is appended for each of `handle_data` and `before_trading_start` the code does not define: both are defined afterwards, the code is kept as a prefix, and nothing changes exactly when both were defined |
| MigrationTool.AddMissingBaseMethodsIdempotent | pylivetrader/misc/migration_tool.py:83-95 | adding the missing stubs a second time adds nothing |
| MigrationTool.Keep | pylivetrader/misc/migration_tool.py:125-129 | the kept lines are none of the dropped ones, at most all lines |
| MigrationTool.KeepConcat | pylivetrader/misc/migration_tool.py:125-129 | filtering distributes over concatenation, so kept lines keep their order |
| MigrationTool.KeepNothingDropped | pylivetrader/misc/migration_tool.py:125-129 | lines none of which is dropped are all kept |
| MigrationTool.RemoveCommission | pylivetrader/misc/migration_tool.py:120-130 | the lines that mention neither `set_commission` nor `set_slippage`, joined by CR LF |
| MigrationTool.ScanImports | pylivetrader/misc/migration_tool.py:105-116 | no kept line is a continued import or a Quantopian import |
| MigrationTool.ImportStep | pylivetrader/misc/migration_tool.py:107-116 | a line is kept exactly when no continuation is being skipped and it is neither a continued nor a Quantopian import; otherwise nothing is kept; skipping goes on only after a line with a backslash |
| MigrationTool.RemoveQuantopianImports | pylivetrader/misc/migration_tool.py:98-117 | the scan's kept lines, joined by CR LF |
| MigrationTool.ScanWithoutBackslash | pylivetrader/misc/migration_tool.py:107-116 | without a backslash the scan just drops the Quantopian imports |
| MigrationTool.ContinuationDropped | pylivetrader/misc/migration_tool.py:108-113 | a continued import, the continuation lines after it that hold a backslash, and the first line without one are all dropped, and skipping ends |
| MigrationTool.SkipThrough | pylivetrader/misc/migration_tool.py:110-113 | while skipping, lines that hold a backslash are dropped and skipping goes on |
| MigrationTool.Cleanup | pylivetrader/misc/migration_tool.py:133-150 | the result has no blank line and is no longer than the input; each pass of the loop shortens the text, so the loop ends |
| MigrationTool.CollapseHead | pylivetrader/misc/migration_tool.py:147 | the replacement of CR LF by LF starts with LF exactly when the text starts with LF or with CR LF |
| MigrationTool.CrLfHead | pylivetrader/misc/migration_tool.py:143 | in text free of the three patterns, a CR LF is followed by neither LF nor CR LF |
| MigrationTool.CollapseCrLf | pylivetrader/misc/migration_tool.py:143-147 | text free of the three patterns has no blank line once CR LF becomes LF |
| Loader.Namespace | pylivetrader/loader.py:50-54 | the namespace holds the names `api` exports and the names the script defines, and a script definition wins over an export of the same name |
| Loader.GetFunctions | pylivetrader/loader.py:39-69 | the result has exactly the keys `initialize`, `handle_data` and `before_trading_start`; each is bound to the script's definition, else to the export, else to `noop` |
| Loader.ListedNamesRenamed | pylivetrader/loader.py:82-85 | `zipline.api` and `zipline.errors` become `pylivetrader.api` and `pylivetrader.errors` |
| Loader.RenameAlias | pylivetrader/loader.py:94-96 | the alias keeps its `as` name, and a name that is not listed stays as it is |
| Loader.ImportNode.constructor | pylivetrader/loader.py:90 | the node holds the given aliases |
| Loader.VisitImport | pylivetrader/loader.py:90-98 | the aliases are rewritten in place, one by one, keeping their number and order |
| Loader.ImportFromNode.constructor | pylivetrader/loader.py:100 | the node holds the given module and names |
| Loader.TranslatedModuleCases | pylivetrader/loader.py:100-116 | a listed module is renamed; `zipline` becomes `pylivetrader` exactly when every imported name is `api` or `errors`, and is left alone otherwise; any other module, or a relative import, is unchanged |
| Loader.TranslatedModule | pylivetrader/loader.py:100-116 | the module name changes only for a listed module or `zipline`, and a missing name stays missing |
| Loader.VisitImportFrom | pylivetrader/loader.py:100-116 | the node's module is rewritten in place as the previous row states |
| Cli.LastPart | pylivetrader/__main__.py:115-116 | the last part holds no `/` and is no longer than the path |
| Cli.LastPartOfJoin | pylivetrader/__main__.py:116 | the last of the parts joined by `/` is the end of the joined text |
| Cli.LastPartEndsPath | pylivetrader/__main__.py:115-116 | a path with a `/` is some head, then `/`, then its last part |
| Cli.ExtractFilename | pylivetrader/__main__.py:113-119 | the algorithm name holds no `/` |
| Cli.ExtractFilenameCases | pylivetrader/__main__.py:113-119 | the name is the last part with three characters dropped exactly when that part contains `.py` anywhere, and the last part itself otherwise |
| Cli.SingleLastPart | pylivetrader/__main__.py:115 | a path without `/` is left as it is by the split |
| Cli.ContainsNeedsRoom | pylivetrader/__main__.py:117-118 | a part containing `.py` has at least three characters, so dropping three is defined |
| Cli.ExtractFilenameOfScript | pylivetrader/__main__.py:97 | `dir/algo.py` gives the name `algo` |
| Cli.SplitAround | pylivetrader/__main__.py:116 | splitting `a/b` gives `[a, b]` when neither part holds a `/` |
| Cli.SplitNoSlash | pylivetrader/__main__.py:115-116 | text without `/` splits into itself alone |
| Cli.SplitAppend | pylivetrader/__main__.py:116 | separator-free text appended to the input extends only the last part |
| Reversion.StopPrice | examples/reversion/reversion_original.py:165-167 | the stop is two and a half ATRs below the price, or zero when that would be negative, and never below either |
| Reversion.StopPriceTest | examples/reversion/test_reversion.py:18-20 | a price of 10 with ATR 2.5 stops at 3.75; a price of 2 stops at 0 |
| Reversion.IsExpired | examples/reversion/reversion_original.py:169-170 | a position is expired exactly when it has been held five days or more |
| Reversion.IsExpiredTest | examples/reversion/test_reversion.py:15-16 | six days is expired; five is, four is not (more than four days) |
| Reversion.Floor | examples/reversion/reversion_original.py:176 | the floor is the whole number at most `x` with `x` below the next one |
| Reversion.GetCost | examples/reversion/reversion_original.py:172-182 | with a positive price and ATR there is no division by zero; the cost is always a whole number of shares times the price, and at most 10% of the total value when the price is positive |
| Reversion.CappedWithin | examples/reversion/reversion_original.py:179-181 | the floor of budget over price is the largest number of shares the budget pays for |
| Reversion.BelowQuotient | examples/reversion/reversion_original.py:180 | fewer shares than the quotient cost at most the budget |
| Reversion.AboveQuotient | examples/reversion/reversion_original.py:180 | more shares than the quotient cost more than the budget |
| Reversion.MulMonotone | examples/reversion/reversion_original.py:177-181 | multiplying by a positive price keeps the order of share counts |
| Reversion.GetCostCapped | examples/reversion/reversion_original.py:178-181 | when the risk-sized cost is above the cap, the cost is the most whole shares that fit in 10% of the value |
| Reversion.GetCostTest | examples/reversion/test_reversion.py:22-23 | ATR 5, value 10000 and price 60 cost 960 |
| Reversion.TrackerDict.constructor | examples/reversion/reversion_original.py:42-43 | the tracker holds the given entries |
| Reversion.ParseInt | examples/reversion/reversion_original.py:89 | `int` of an empty string raises |
| Reversion.ParseDigits | examples/reversion/reversion_original.py:186 | a run of digits, with or without a minus sign, reads as its value |
| Reversion.ParseIntOfString | examples/reversion/reversion_original.py:186-187 | a day count written with `str` reads back as itself |
| Reversion.OneDayOlder | examples/reversion/reversion_original.py:186-187 | the days go up by one and the ATR stays; the update fails exactly when the days do not read |
| Reversion.FirstUnreadable | examples/reversion/reversion_original.py:185-186 | the first entry whose days do not read, all before it read |
| Reversion.IncrementFrom | examples/reversion/reversion_original.py:184-188 | the keys and ATRs stay; every entry is one day older exactly when all days read; otherwise the entries before the first unreadable one are aged and it and the later ones are unchanged |
| Reversion.Aged | examples/reversion/reversion_original.py:185-187 | ageing a prefix keeps the tracker's length |
| Reversion.AgedStep | examples/reversion/reversion_original.py:185-187 | ageing one more entry is one more update in place |
| Reversion.IncrementDay | examples/reversion/reversion_original.py:184-188 | the loop leaves the tracker as `IncrementFrom` computes it from the old entries |
| Reversion.IncrementDayTest | examples/reversion/test_reversion.py:25-29 | AAPL goes from 1 to 2 days and FB from 2 to 3; the ATRs stay |
| Reversion.DaysRead | examples/reversion/reversion_original.py:186-187 | a one-digit day count reads as its value and is written back the same way |
| Reversion.FreshEntry | examples/reversion/reversion_original.py:193-195 | a new entry has zero days and the string of its ATR, and no ATR exactly when the ATR lookup fails |
| Reversion.AddOne | examples/reversion/reversion_original.py:192-195 | a tracked symbol is left alone; an untracked one is appended with zero days and the string of its ATR; a missing ATR raises with the entry already appended, holding zero days and no ATR |
| Reversion.AddOneGet | examples/reversion/reversion_original.py:192-195 | adding one symbol keeps the keys distinct and changes the answer for that symbol only, to its fresh entry |
| Reversion.AddAll | examples/reversion/reversion_original.py:190-196 | the keys stay distinct and the old entries stay in place at the front: the loop only appends, at most one entry per held symbol |
| Reversion.AddAllEffect | examples/reversion/reversion_original.py:190-196 | tracked entries are untouched; only held symbols are added, each with its fresh entry; when the loop completes every held symbol is tracked and each added one has its ATR, and when it raises some held symbol is left with zero days and no ATR, which the later ATR lookup at line 94 cannot read |
| Reversion.AddToTracker | examples/reversion/reversion_original.py:190-196 | the loop leaves the caller's tracker, partial entry included when it raises, and reports completion exactly as `AddAll` computes from the old entries |
| Reversion.AddToTrackerTest | examples/reversion/test_reversion.py:31-47 | FB is added with zero days and ATR 3 to an empty tracker, and left as it was when already tracked; without an ATR it is left with zero days and none |
| Reversion.Kept | examples/reversion/reversion_original.py:198-208 | the new tracker holds only entries of the old one whose symbol is held, and every such entry |
| Reversion.KeptGet | examples/reversion/reversion_original.py:198-208 | the new tracker answers for a held symbol as the old one did, and for no other symbol |
| Reversion.KeptDistinct | examples/reversion/reversion_original.py:198-208 | keeping entries keeps the keys distinct |
| Reversion.CleanTracker | examples/reversion/reversion_original.py:198-208 | the loop builds a fresh tracker holding the kept entries and leaves the given one alone |
| Reversion.CleanTrackerTest | examples/reversion/test_reversion.py:49-55 | holding only AAPL keeps only AAPL's entry |
| PriceHelpers.NickelMultipleIff | algo.py:276-280 | a price is on five cents exactly when it is a whole number of five-cent steps |
| PriceHelpers.Ceil | algo.py:278 | the ceiling is the whole number at least `x` with `x` above the one below |
| PriceHelpers.MakeDivBy05 | algo.py:276-280 | the result is on five cents; to buy it is the largest such price at most `s` and within five cents below it; to sell, the smallest at least `s` and within five cents above it; a price already on five cents stays |
| PriceHelpers.NickelsWhole | algo.py:279 | a whole number of steps, times twenty, is that number again, so it is on five cents |
| PriceHelpers.RoundDown | algo.py:277-279 | rounding down gives the largest multiple of five cents at most `s`, within five cents of it |
| PriceHelpers.FloorGreatest | algo.py:278 | a whole number at most `x` is at most the floor of `x` |
| PriceHelpers.FloorOfWhole | algo.py:278 | a whole number is its own floor |
| PriceHelpers.NickelsMonotone | algo.py:279 | more five-cent steps are never less money |
| PriceHelpers.RoundUp | algo.py:277-279 | rounding up gives the smallest multiple of five cents at least `s`, within five cents of it |
| PriceHelpers.MakeDivBy05Idempotent | examples/q01/original.py:285-289 | rounding a rounded price again changes nothing |
| PriceHelpers.MakeDivBy05Test | algo.py:267 | 10.07 rounds to 10.05 to buy and to 10.10 to sell |
| PriceHelpers.ComputeWeights | algo.py:162-169 | with no names the division by zero raises; otherwise each name gets a positive share, and the shares sum to one |
| Strings.ContainsConcat | pylivetrader/errors.py:11 | a string contains whatever a part of it contains, so a message holds the text put into it |
| Strings.ReplaceAllShrinks | pylivetrader/misc/migration_tool.py:143-146 | replacing a pattern with a shorter text never lengthens the string, shortens it when the pattern occurs, and changes nothing otherwise |
| Strings.NoRoomNoOccurrence | pylivetrader/misc/migration_tool.py:143 | a string shorter than the pattern does not contain it |
| Strings.FirstBreak | pylivetrader/misc/migration_tool.py:78 | the first line break, with none before it |
| Strings.SplitLines | pylivetrader/misc/migration_tool.py:107 | every line is free of line breaks, and there are no lines exactly when the text is empty |
| Strings.SplitOneLine | pylivetrader/misc/migration_tool.py:78 | text without a line break is one line |
| Strings.JoinSnoc | pylivetrader/misc/migration_tool.py:117 | joining one more part appends the separator and that part |
| Strings.SplitOn | pylivetrader/loader.py:34 | there is at least one part, and no part holds the separator |
| Strings.JoinSplitOn | pylivetrader/__main__.py:116 | joining the parts with the separator gives back the text |
| Strings.JoinGrowLast | pylivetrader/__main__.py:116 | growing the last part grows the joined text at its end |
| Strings.NatToString | pylivetrader/testing/fake/backend.py:70-78 | the written number is a non-empty run of decimal digits |
| Strings.DigitChar | pylivetrader/testing/fake/backend.py:78 | a digit is written as a decimal digit character |
| Strings.NatToStringValue | pylivetrader/testing/fake/backend.py:78 | reading back the written digits gives the number |
| Strings.Upper | pylivetrader/assets/finder.py:166 | ASCII upper-casing: each character is upper-cased on its own, so the length is kept |
| Strings.Without | pylivetrader/testing/fixtures.py:60 | with every `-` removed, none remains and the text is no longer |
| OrderedDicts.Keys | pylivetrader/assets/finder.py:35-38 | the keys, one per entry, in order |
| OrderedDicts.Get | pylivetrader/assets/finder.py:32-40 | a key is missing exactly when no entry has it; a found value is some entry's value under that key |
| OrderedDicts.GetEntry | pylivetrader/assets/finder.py:35-38 | with distinct keys, looking up an entry's key gives that entry's value |
| OrderedDicts.Put | pylivetrader/testing/fake/backend.py:80 | writing a present key replaces its value in place; writing a new key appends it |
| OrderedDicts.PutGet | pylivetrader/testing/fake/backend.py:80 | after writing, keys stay distinct, the key maps to the new value and every other key is unchanged |
| OrderedDicts.FromItems | pylivetrader/assets/finder.py:35-38 | a dictionary built by a comprehension has distinct keys |
| OrderedDicts.FromItemsGet | pylivetrader/assets/finder.py:35-38 | the built dictionary holds exactly the items' keys, each with the value of its last item |
| OrderedDicts.FromItemsNone | pylivetrader/assets/finder.py:35-38 | a key is missing exactly when no item has it |
| OrderedDicts.FromItemsLast | pylivetrader/assets/finder.py:35-38 | the last item with a key gives its value |
| OrderedDicts.Values | pylivetrader/assets/finder.py:35-38 | the values, one per entry, in order |
| OrderedDicts.Remove | pylivetrader/testing/smoke/backend.py:102 | the entries of the key are dropped and all others kept, in order; distinct keys stay distinct |
| OrderedDicts.TailFresh | pylivetrader/testing/smoke/backend.py:102 | with distinct keys, the tail's entries do not carry the first entry's key |
| OrderedDicts.RemoveGet | pylivetrader/testing/smoke/backend.py:102 | after removing, the key is absent and every other key keeps its value |
| OrderedDicts.DistinctTail | pylivetrader/testing/smoke/backend.py:102 | the tail of a dictionary with distinct keys has distinct keys, lacks the first key and answers for every other key |
| OrderedDicts.PutTwice | pylivetrader/testing/smoke/backend.py:102-124 | writing a key twice is writing it once with the second value |
| OrderedDicts.PutTwiceNew | pylivetrader/testing/smoke/backend.py:124 | a new key written twice is one last entry with the second value |
| OrderedDicts.PutTwicePresent | pylivetrader/testing/smoke/backend.py:124 | a present key written twice holds the second value in its place |
| OrderedDicts.Discard | pylivetrader/testing/fake/backend.py:83-85 | a missing key changes nothing; otherwise the key is gone, the keys stay distinct and every other key keeps its value |

## Left out

- Broker and market-data I/O: every REST, Polygon and streaming call. The answers are function parameters (`listOrders`, `submit`, the bar fetchers, `getSpotValue`). This covers `_symbol_bars`, `_symbol_trades`, `get_equities` with its calendar aliases, and the `positions`, `portfolio` and `account` built from REST responses. `backend/alpacapaperonly.py` is not part of this model.
- AlpacaBackends.AlpacaBackend.AllOrders: pagination assumes the broker returns only orders submitted before the `until` it is given (`ListsBefore`). The page size of 500 is not modelled; the loop stops at an empty page.
- The stream thread and the asyncio loop of `backend/alpaca.py:113-160`, and `parallelize`. A trade update is one atomic call, and a fan-out is a sequential map.
- Wall clock, sleeping, the trading calendar and time zones (`trading_calendars`, `tz_convert`, daylight saving time) are parameters over integer UTC minutes. Times are whole minutes, so the clock's flooring to the minute is the only sub-minute rule kept.
- Floating point: prices are reals, and NaN and NaT are `Option`. `tolerant_equals` is not modelled.
- OrderRules.RoundOrder: it follows the documented rule (the integer within 0.0001, else truncation toward zero), because `round_if_near_integer` is not part of this model.
- `str(float)` in the reversion tracker is a parameter, since the model has no float formatting.
- CanTradeForAsset: `Asset` and `Equity` (`pylivetrader/assets/assets.py:3-56`) define no `is_exchange_open`, so the source raises AttributeError at `pylivetrader/data/bardata.py:335` for a tradable asset in minute mode. The model takes the exchange check as a function parameter and answers.
- IsStaleForAsset: `Asset` and `Equity` define no `is_alive_for_session`, so the source raises AttributeError at `pylivetrader/data/bardata.py:398` for every asset. The model takes the alive check as a function parameter and answers.
- FakeClocks.FakeClock.constructor: without an initial time the source starts from `pd.Timestamp.utcnow()` unfloored (`pylivetrader/testing/fake/clock.py:31`), so every later server time keeps those seconds and `server_time == session_close` (:92) never holds; such a clock never yields the close BAR or SESSION_END. The model takes the current time as a whole minute, so its clock yields both.
- Upper: ASCII upper-casing only. Python's `str.upper` also maps other Unicode letters and can change the length (`'ß'` becomes `'SS'`). It feeds the fuzzy symbol lookup (`pylivetrader/assets/finder.py:166`) and the fixture symbols (`pylivetrader/testing/fixtures.py:60`).
- Reversion.ParseInt: reads an optional sign and decimal digits only. Python's `int()` also accepts surrounding whitespace and underscores between digits; those are not modelled.
- Reversion.CleanTracker: builds a fresh tracker of the kept entries instead of deep-copying and popping. The result and the untouched input are the same as the source's.
- The iteration order of `context.portfolio.positions` is not modelled; held symbols are a sequence given by the caller.
- pandas shaping: `BarData.history` (and its adjust path that calls a missing `simulation_dt_func`), the MultiIndex and concat of every `get_bars`, and the daily resample merge of `backend/alpaca.py:491-527`.
- DataPortals.DataPortal: the bar memo is an unbounded map keyed by the request. The `lru_cache` size limit of 10 and its eviction are not modelled.
- Execution styles: a style carries its limit and stop prices as given. The price rounding inside the style classes (`finance/execution`) is not modelled.
- `batch_order` in every backend: it is the list of single `order` calls and adds no rule of its own.
- The smoke backend's sine-wave bars and `_populate_missing` (`testing/smoke/backend.py:220-333`). Minute bars are a function parameter of the fill pass.
- The fake backend's `get_spot_value`: it reads the proxy backend's bars, which is I/O here.
- SmokeClocks.SmokeClock: `_next` raises `StopIteration` inside the generator. Under PEP 479 that surfaces as `RuntimeError` on Python 3.7 and later; the model treats it as the end of iteration, as older Pythons do.
- Asset equality and hashing are value equality of the datatype, an abstraction of the source's object identity. `Asset` defines `__hash__` (`pylivetrader/assets/assets.py:18-19`) but no `__eq__`, so two `Equity` objects built separately are different dictionary keys. The fixture backend keys its minute and daily bars by the equities of one `get_equities()` call, and every call builds new ones (`pylivetrader/testing/fixtures.py:45-65`). So the lookup with equities from a later call, as in `tests/test_testing/test_fixtures.py:10-12`, raises KeyError in the source, while the model finds the bars. The same holds for every other dictionary keyed by assets: positions, open orders and the bar memo.
- `tests/test_assets/test_assets.py:21` compares assets with `<`, which `Asset` does not define; that ordering is not modelled.
- The fixture backend's calendar minutes and session days are parameters.
- `split_delimited_symbol` is a parameter of the symbol lookups, because `zipline_utils` is not part of this model.
- Persistence engines (`FileStore`, `RedisStore`, pickle): an engine is an object holding the saved map, or nothing when it cannot load. Files, Redis and serialisation are not modelled.
- Also not modelled: `configloader`, the click CLI `run`, `shell.py` and `setup.py`.
- Dynamic code: backend loading through `importlib` (`algorithm.py:142-164`), `exec` in `get_functions` (the namespace is a given map), `astor` regeneration in `translate`, and `pipeline_output`.
- In the migration tool: `make_sure_source_code_is_python3_compatible` (lib2to3 and `os.popen`) and its `__main__` file handling.
- Modules that are not shown are opaque parameters: `events` and `EventManager`, `finance/controls`, `execution`, `asset_restrictions`, `protocol` and `math_utils`.
- Strategy scripts outside their helpers, the mock and patch harnesses, `finance/commission.py` and `api.py`.
- Logging is not modelled. Only its effect on control flow is kept, such as a swallowed exception in `handle_retry` or the warning branch of `visit_ImportFrom`.

## Findings

| source | as written | input that shows it | evidently intended | confidence | as-written member | corrected member |
|---|---|---|---|---|---|---|
| pylivetrader/executor/realtimeclock.py:110-115 | the close-minute branch sets `_last_emit` but does not check it, unlike the branch before it | two polls within the close minute of a session, after its before-trading-start bar | BAR, MINUTE_END and SESSION_END once per session close | not executed | ClockRules.CloseMinuteRepeats, ClockRules.CloseTwice | ClockRules.GuardedCloseOnce |
| examples/reversion/paper.py:304-305 | the current position is looked up by `asset.symbol`, but the position table is keyed by asset | a short position of 10 shares and an order to buy 15 with `quantopian_compatible` | the flip is split into a buy of 10 and a pending buy of 5, as in `backend/alpaca.py:282-295` | not executed | PaperBackends.PlaceOrderAsWritten, PaperBackends.AsWrittenIgnoresPosition, PaperBackends.FlipNotSplitAsWritten | PaperBackends.PlaceOrderByAsset |
| pylivetrader/testing/smoke/backend.py:101-111 | `_fill` pops the asset's position before the short-sale check, and the early return does not put it back | a held position of 5 shares and a fill of a sell order for 10 | a refused fill leaves the position as it was | not executed | SmokeBackends.FillAsWritten, SmokeBackends.FillAsWrittenDropsPosition, SmokeBackends.FillShortSaleExample | SmokeBackends.Fill |

The backend classes follow the code as written. `PaperBackend.Order` and
`PaperBackend.HandleTradeUpdate` look the position up by symbol
(`PlaceOrderAsWritten`, `TradeUpdate(SymbolKey, …)`). The smoke backend's
order pass fills with `FillAsWritten` (`FillWith(AsWritten, …)`). The
corrected halves are the same rules with the other parameter:
`PlaceOrderByAsset` and `TradeUpdate(AssetKey, …)` for the paper backend,
and `Fill` and `FillPass(Intended, …)` for the smoke backend. The lemmas
on trade updates and on order passes take the rule as a parameter, so
they hold for both halves.
