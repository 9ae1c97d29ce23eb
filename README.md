# Target-exposure trading bot: a Dafny model

This project models the core of a single-strategy trading bot (`trading_bot.py`).
The bot holds a short position in one instrument and keeps its value near a fixed
target. Each cycle it reads the price and the short position from the exchange
and compares the position's value with the target of 1000 USD. When the gap is
larger than 5 USD it places a market order that closes the gap. Then it sleeps
for the configured interval. A failure inside a cycle is caught and logged, and
the loop goes on. An interrupt, or an exception that escapes the loop, leads to
the graceful shutdown, which sets the `shutdown_requested` flag and disconnects.

Modules:

- `Wrappers` (wrappers.dfy): `Option`, used for exchange replies that may be missing.
- `Config` (config.dfy): the order `Side`, the `TradingConfig` record and the closing side of a position.
- `Rebalancer` (rebalancer.dfy): the rebalancing rule as a pure function over exact reals, with the fill that follows it.
- `ControlLoop` (control_loop.dfy): the observable `Action`s and the inputs of a run. It also holds reference
  functions for the parts of a run:
  - one cycle: `Attempted`, `CycleActions`;
  - a sleep with what happens from outside meanwhile: `DuringSleep`;
  - run's handlers and finally: `Escape`;
  - the loop: `Loop`, `AfterSleep`;
  - a whole run: `RunSpec`.

  It also holds the class `TradingBot`, with the `shutdownRequested` flag and the `actions` trace as fields.
  Its methods are proved to append exactly what the reference functions say.
- `LoopProperties` (loop_properties.dfy): lemmas about those traces, counting actions by `Kind`.

The exchange client is foreign code, so its replies are inputs. `Run` takes three:
- the outcome of the connect call: it raised, or it connected, together with what happens from outside during the 5-second settle wait;
- one `CycleInput` per cycle: the price reply, the position reply, whether the order is accepted,
  and what happens from outside during the cycle's sleep;
- the outcome of the disconnect in run's own shutdown (each outside shutdown call carries its own).

What happens from outside during a sleep is a sequence of events. Each event is either another task calling
`graceful_shutdown` (`ExternalShutdown`) or an exception raised into the sleep (`Raise`). An exception is one of:
- a `KeyboardInterrupt`;
- an ordinary `Exception`;
- a cancellation, i.e. a `BaseException` that is not an `Exception`, such as `asyncio.CancelledError`.

Each shutdown call runs `graceful_shutdown` once more, and the first exception ends the sleep. Every call on
the exchange and every sleep goes into the bot's `actions`, and so do the log lines that mark
a cycle's caught error, the start of a shutdown and the final "shutdown complete".

Where the code differs from what one might expect (a shutdown that is not idempotent, positions that are not signed), the model follows the code:

- `graceful_shutdown` is not idempotent. Every call sets the flag and disconnects again.
  Two shutdown calls during one sleep disconnect twice (`ShutdownTwiceDisconnectsTwice`).
  So does a shutdown call followed by an interrupt, because run's handler shuts down once more (`ShutdownThenInterruptDisconnectsTwice`).
  What holds in general (`RunTrace`):
  - each call disconnects exactly once;
  - run itself calls `graceful_shutdown` at most once, besides the calls from outside;
  - the flag ends set exactly when it was set at the start or some call ran.

  A run that starts with the flag clear and gets no outside calls disconnects exactly once if it ends with the flag set, and not at all otherwise.
  A single outside call during a cycle's sleep also disconnects exactly once: no new cycle starts after that sleep (`ShutdownDuringSleepEndsLoop`).
  More generally the loop stops at the first cycle whose sleep is disturbed from outside (`LoopStopsAtFirstDisturbance`).
  A run started with the flag already set, whose connect returns with nothing from outside during the settle wait, skips the loop and stops without disconnecting.
- A cancellation is not an `Exception`, so neither handler catches it. It leaves `run` through the finally alone:
  the final line is written, `graceful_shutdown` is not called, and the flag keeps its value.
- The position is the short position as the exchange reports it, so a short of 8 units is `8`, not `-8`.
  At a price of 100 that is 200 below the target, and the rule sells 2 units (`ShortBelowTargetSells`).
- The target (1000 USD) and the minimum order value (5 USD) are constants in `run`, not configuration fields.
- The code never checks that the price is positive. A zero price with an order due makes the size
  computation divide by zero, and the cycle handler catches that (`Decision.ZeroPrice`). A negative price
  passes through unchanged.

## Model

| member | source | states |
|---|---|---|
| `Config.CloseOrderSide` | trading_bot.py:34-37 | the closing side is "buy" exactly when the direction is the string "sell", and "sell" for every other direction |
| `Config.CloseOrderSideIsOpposite` | trading_bot.py:34-37 | for a bot whose direction names a side, the closing side is the opposite side and its name differs from the direction |
| `Rebalancer.Rebalance` | trading_bot.py:117-126 | no order iff the absolute deviation from the target is at most the minimum; a zero price with an order due is the division failure; an order sells iff the deviation is positive, its notional is the absolute deviation, quantity times price equals that notional, and the quantity is positive for a positive price and a non-negative minimum |
| `Rebalancer.RebalanceReachesTarget` | trading_bot.py:117-126 | filling the produced order (a sell adds to the short, a buy takes away) makes the position's value equal the target exactly |
| `Rebalancer.RebalanceSettles` | trading_bot.py:117-126 | after the produced order is filled, the rule at the same price asks for no action |
| `Rebalancer.ShortBelowTargetSells` | trading_bot.py:89-126 | a short of 8 units at price 100 with the bot's constants gives a sell of 2 units worth 200 |
| `Rebalancer.ShortOnTargetHolds` | trading_bot.py:89-126 | a short of 10 units at price 100 gives no action |
| `ControlLoop.TradingBot.constructor` | trading_bot.py:45-68 | a new bot keeps its configuration, has the flag clear and has done nothing yet |
| `ControlLoop.TradingBot.GracefulShutdown` | trading_bot.py:71-80 | every call leaves the flag set and appends one shutdown line and one disconnect attempt, whether or not the disconnect fails |
| `ControlLoop.TradingBot.TryCycle` | trading_bot.py:105-141 | the try block appends the reads and the order of the reference cycle and returns the exception that ended it early, leaving the flag alone |
| `ControlLoop.TradingBot.RunCycle` | trading_bot.py:105-148 | one loop iteration appends the try block's actions, the handler's error line when it failed, and the sleep |
| `ControlLoop.TradingBot.SleepThrough` | trading_bot.py:145-148 | a sleep appends one shutdown and one disconnect per outside shutdown call up to the first exception, sets the flag if any call came, and returns that exception, as the reference sleep says |
| `ControlLoop.TradingBot.Escaped` | trading_bot.py:150-158 | an interrupt shuts down with the user-interruption reason and an ordinary exception with the critical-error reason; a cancellation skips both handlers; all three then append the final line |
| `ControlLoop.TradingBot.CycleWithSleep` | trading_bot.py:105-148 | one pass of the loop body appends the cycle's actions and what happened during its sleep, and returns the exception that ended the sleep |
| `ControlLoop.TradingBot.MainLoop` | trading_bot.py:104-158 | the loop from its guard on, with the handlers and the finally, appends exactly the reference loop's actions and leaves its flag and stopped result |
| `ControlLoop.TradingBot.AfterSettle` | trading_bot.py:101-158 | after the settle wait, an exception raised during it goes to the handlers and the finally, otherwise the main loop runs, as the reference says |
| `ControlLoop.TradingBot.Run` | trading_bot.py:83-158 | the run appends exactly the reference run's actions and leaves the flag and the stopped result the reference run gives |
| `LoopProperties.AttemptShape` | trading_bot.py:105-141 | the try block reads the price first and once, places an order only as its third action right after the two reads, never sleeps or shuts down, and fails whenever it stops after the price read |
| `LoopProperties.CycleShape` | trading_bot.py:104-148 | a cycle starts with the price read, ends with exactly one sleep of the configured length, places at most one order and only right after both reads, and never disconnects or ends the run |
| `LoopProperties.CycleWithoutPrice` | trading_bot.py:107-109 | a missing price ends the cycle with an error before the position read and before any order, then sleeps |
| `LoopProperties.CycleWithoutPosition` | trading_bot.py:113-115 | a missing position ends the cycle with an error before any order, then sleeps |
| `LoopProperties.CycleWithinBand` | trading_bot.py:121-140 | within the tolerated band the cycle reads, places no order, logs no error and sleeps |
| `LoopProperties.CycleOrder` | trading_bot.py:123-137 | a cycle places an order iff both reads succeed and the rule asks for one; the order is the rule's side and quantity, and a rejected order is logged as the cycle's error |
| `LoopProperties.ShutdownActionsCounts` | trading_bot.py:71-80 | one call of the shutdown logs one start and makes one disconnect attempt, and nothing else counted |
| `LoopProperties.SleepFacts` | trading_bot.py:145-148 | during a sleep each outside shutdown call disconnects once, the calls are at most the outside calls and all of them when no exception came, the flag ends set iff it was set or a call ran, and any event ends the loop |
| `LoopProperties.EscapeFacts` | trading_bot.py:150-158 | every way out through the handlers ends with the final line; an interrupt or an ordinary exception shuts down exactly once and sets the flag; a cancellation does not shut down and leaves the flag as it was |
| `LoopProperties.CycleIsolation` | trading_bot.py:142-148 | a cycle with nothing from outside during its sleep is followed by the next cycle whatever its replies were, failed reads and rejected orders included |
| `LoopProperties.LoopStopsOnlyOnInterference` | trading_bot.py:104-156 | entered with the flag clear, the loop stops iff something happens from outside during some cycle's sleep; otherwise every cycle runs with one sleep each and the flag stays clear |
| `LoopProperties.LoopGuard` | trading_bot.py:104 | with the flag set at the guard no cycle runs and only the final line follows |
| `LoopProperties.LoopTrace` | trading_bot.py:104-158 | in the loop's trace price reads equal sleeps, orders are at most the sleeps, each order follows both reads, the final line ends the trace exactly when the loop stopped, each shutdown call disconnects once, the flag is set iff it was set or a call ran, and shutdown calls are at most the outside calls plus one |
| `LoopProperties.ShutdownTwiceDisconnectsTwice` | trading_bot.py:71-80 | two outside shutdown calls during one sleep disconnect twice: the shutdown is not idempotent |
| `LoopProperties.ShutdownThenInterruptDisconnectsTwice` | trading_bot.py:150-152 | an outside shutdown call followed by an interrupt during one sleep disconnects twice |
| `LoopProperties.ConnectFailureRunsNoCycle` | trading_bot.py:99-158 | a connect that raises leads to no cycle: an interrupt or an ordinary exception gives one shutdown with its reason and the final line, a cancellation gives only the final line and leaves the flag |
| `LoopProperties.LoopStopsAtFirstDisturbance` | trading_bot.py:104-148 | entered with the flag clear, the loop stops at the first cycle whose sleep is disturbed from outside: if that is cycle k (counting from 0), the trace has exactly k + 1 sleeps and k + 1 price reads and no later cycle starts |
| `LoopProperties.ShutdownDuringSleepEndsLoop` | trading_bot.py:104-148 | one outside shutdown call during a cycle's sleep: whatever inputs remain, the loop's trace is that cycle, the shutdown and the final line, with exactly one disconnect |
| `LoopProperties.RunTrace` | trading_bot.py:83-158 | over a whole run each order follows both reads, orders never exceed price reads, every return ends with the final line, each shutdown call disconnects once, the flag is set iff it was set at the start or a call ran, run itself adds at most one shutdown call to the outside ones, and a run started with the flag clear and no outside calls disconnects exactly once iff it ends with the flag set |

## Left out

- The exchange client and its factory: not shown, so every reply is an input. A read that returns nothing and a read that raises are the same input, because both end the cycle in the same handler.
- Logging: only the lines that mark a caught cycle error, the start of a shutdown and the end of the run are `Action`s. Message texts and the traceback are not modelled; the critical-error reason is the fixed text "Critical error" without the exception's message.
- Time: sleeps are `Sleep` actions. The 5-second wait after connecting and the cycle interval are only their lengths.
- Concurrency: outside shutdown calls and exceptions from outside are delivered only while the bot sleeps, either in a cycle's sleep or in the settle wait after connecting, or as the connect call's own outcome. One arriving in the middle of a cycle's reads or order is not modelled; an ordinary exception there is the cycle's own failure, which the cycle handler catches.
- A cancellation leaves `run` after the finally; the model stops there and does not follow the exception further.
- A disconnect failure is recorded in the `Disconnect` action and changes nothing else, as the source swallows it.
- Numbers are exact reals. Float and Decimal rounding are not modelled, and neither is the type error Python would raise when subtracting a Decimal from a float.
- The run ends only through its inputs. When the cycle inputs run out with the flag clear, `Run` returns `false`: the bot would still be looping.
- The constructor's logger and exchange-client creation (and the error raised when the factory fails) are not modelled.
- Configuration fields that the core never reads (quantity, take profit, tick size, order limits, grid step, stop and pause prices, boost flag, contract id) are not modelled.
