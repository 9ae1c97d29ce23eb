/**
  The control loop of TradingBot (trading_bot.py:40-158): connect, then
  repeat an error-isolated cycle (read price, read position, decide, maybe
  place an order, always sleep) until shutdown is requested; fatal errors
  and interrupts route to the graceful shutdown.

  The exchange client is not modelled.  Its replies are inputs: one
  ConnectOutcome for the connect call and the settle wait, and one
  CycleInput per cycle.  Every
  call the bot makes, every sleep and the log lines that mark a caught
  error, the start of a shutdown and the end of the run are recorded, in
  order, in the bot's `actions`.
 */
module ControlLoop {
  import opened Wrappers
  import opened Config
  import opened Rebalancer

  /** Seconds the bot waits after connecting, before the first cycle. */
  const SettleSeconds: int := 5
  /** Shutdown reason when the operator interrupts the bot. */
  const InterruptReason: string := "User interruption (Ctrl+C)"
  /** Shutdown reason (prefix) when an exception escapes the loop. */
  const CriticalReason: string := "Critical error"

  /** Why a cycle ended early; each is an exception the cycle handler catches. */
  datatype Failure =
    | PriceUnavailable      // the price read gave nothing or raised
    | PositionUnavailable   // the position read gave nothing or raised
    | DivisionByZero        // an order was due at a price of zero
    | OrderRejected         // placing the order raised

  /** What the bot does that can be observed from outside. */
  datatype Action =
    | Connect
    | Sleep(seconds: int)
    | ReadPrice
    | ReadPosition
    | PlaceOrder(ticker: string, side: Side, quantity: real)
    | CycleError(cause: Failure)       // the cycle handler logged a caught error
    | ShutdownStarted(reason: string)
    | Disconnect(ok: bool)             // a disconnect attempt and whether it succeeded
    | ShutdownComplete                 // the final log line of run

  /** The exchange's replies within one cycle. */
  datatype Replies = Replies(price: Option<real>, position: Option<real>, orderAccepted: bool)

  /** An exception that leaves run's try block: the handlers at the end of
      run catch an operator interrupt and any ordinary exception; a
      cancellation is neither and passes straight to the final line. */
  datatype Raised = KeyboardInterrupt | Error | Cancellation

  /** One thing that happens from outside while the bot sleeps. */
  datatype Interference =
    | ExternalShutdown(reason: string, disconnectOk: bool)  // another task calls graceful_shutdown
    | Raise(e: Raised)                                      // an exception interrupts the sleep

  /** A cycle's replies and what happens, in order, during the sleep after it. */
  datatype CycleInput = CycleInput(replies: Replies, during: seq<Interference>)

  /** The connect call either returns, and the settle wait that follows sees
      `settle` from outside, or it raises. */
  datatype ConnectOutcome = Connected(settle: seq<Interference>) | ConnectRaised(e: Raised)

  /** The calls made by the body of one cycle and the exception, if any, that ended it. */
  datatype Attempt = Attempt(actions: seq<Action>, failure: Option<Failure>)

  /** What a run did, whether the flag ended up set, and whether run returned
      (false: the inputs ran out while the loop was still going). */
  datatype RunResult = RunResult(actions: seq<Action>, shutdownRequested: bool, stopped: bool)

  /** The body of one cycle: the try block of the loop. */
  function Attempted(ticker: string, r: Replies): Attempt
  {
    match r.price
    case None => Attempt([ReadPrice], Some(PriceUnavailable))
    case Some(price) =>
      match r.position
      case None => Attempt([ReadPrice, ReadPosition], Some(PositionUnavailable))
      case Some(qty) =>
        match Rebalance(price, qty, TargetShortUsd, MinOrderUsd)
        case NoAction => Attempt([ReadPrice, ReadPosition], None)
        case ZeroPrice => Attempt([ReadPrice, ReadPosition], Some(DivisionByZero))
        case Order(o) =>
          Attempt([ReadPrice, ReadPosition, PlaceOrder(ticker, o.side, o.quantity)],
                  if r.orderAccepted then None else Some(OrderRejected))
  }

  /** A whole cycle: the body, the handler's error line if it failed, and the sleep. */
  function CycleActions(cfg: TradingConfig, r: Replies): seq<Action>
  {
    var a := Attempted(cfg.ticker, r);
    a.actions + (if a.failure.Some? then [CycleError(a.failure.value)] else []) + [Sleep(cfg.waitTime)]
  }

  /** What one call of graceful_shutdown does. */
  function ShutdownActions(reason: string, disconnectOk: bool): seq<Action>
  {
    [ShutdownStarted(reason), Disconnect(disconnectOk)]
  }

  function Then(prefix: seq<Action>, r: RunResult): RunResult
  {
    r.(actions := prefix + r.actions)
  }

  /** What a sleep went through: the actions of the shutdown calls made
      from outside, the flag afterwards, and the exception, if any, that
      cut the sleep short (events after it are not delivered). */
  datatype Sleeping = Sleeping(actions: seq<Action>, requested: bool, raised: Option<Raised>)

  /** The events of one sleep, delivered in order with the flag at
      `requested`: each shutdown call runs graceful_shutdown, the first
      exception ends the sleep. */
  function DuringSleep(requested: bool, events: seq<Interference>): Sleeping
    decreases |events|
  {
    if events == [] then Sleeping([], requested, None)
    else match events[0]
      case ExternalShutdown(reason, ok) =>
        var rest := DuringSleep(true, events[1..]);
        rest.(actions := ShutdownActions(reason, ok) + rest.actions)
      case Raise(e) => Sleeping([], requested, Some(e))
  }

  /** An exception left run's try block with the flag at `requested`: the
      matching handler, then the final line. */
  function Escape(e: Raised, requested: bool, disconnectOk: bool): RunResult
  {
    match e
    case KeyboardInterrupt => RunResult(ShutdownActions(InterruptReason, disconnectOk) + [ShutdownComplete], true, true)
    case Error => RunResult(ShutdownActions(CriticalReason, disconnectOk) + [ShutdownComplete], true, true)
    case Cancellation => RunResult([ShutdownComplete], requested, true)
  }

  /** The loop from its guard on, with the flag at `requested` and the
      remaining per-cycle inputs; `disconnectOk` is the outcome of run's own
      disconnect, should it shut down. */
  function Loop(cfg: TradingConfig, requested: bool, cycles: seq<CycleInput>, disconnectOk: bool): RunResult
    decreases |cycles|, 1
  {
    if requested then RunResult([ShutdownComplete], true, true)
    else if cycles == [] then RunResult([], false, false)
    else
      var s := DuringSleep(false, cycles[0].during);
      Then(CycleActions(cfg, cycles[0].replies) + s.actions, AfterSleep(cfg, s, cycles[1..], disconnectOk))
  }

  /** What follows a sleep: the handler of the exception that cut it short,
      or the loop's guard. */
  function AfterSleep(cfg: TradingConfig, s: Sleeping, rest: seq<CycleInput>, disconnectOk: bool): RunResult
    decreases |rest|, 2
  {
    if s.raised.Some? then Escape(s.raised.value, s.requested, disconnectOk)
    else Loop(cfg, s.requested, rest, disconnectOk)
  }

  /** A whole run, from the connect call on. */
  function RunSpec(cfg: TradingConfig, requested: bool, connect: ConnectOutcome,
                   cycles: seq<CycleInput>, disconnectOk: bool): RunResult
  {
    match connect
    case Connected(settle) =>
      var s := DuringSleep(requested, settle);
      Then([Connect, Sleep(SettleSeconds)] + s.actions, AfterSleep(cfg, s, cycles, disconnectOk))
    case ConnectRaised(e) => Then([Connect], Escape(e, requested, disconnectOk))
  }

  lemma ThenThen(a: seq<Action>, b: seq<Action>, r: RunResult)
    ensures Then(a, Then(b, r)) == Then(a + b, r)
  {
  }

  class TradingBot {
    const config: TradingConfig
    var shutdownRequested: bool
    var actions: seq<Action>

    constructor (config: TradingConfig)
      ensures this.config == config
      ensures !shutdownRequested && actions == []
    {
      this.config := config;
      shutdownRequested := false;
      actions := [];
    }

    /** Sets the flag and tries to disconnect; a failed disconnect is only
        logged.  Every call disconnects again: it is not idempotent. */
    method GracefulShutdown(reason: string, disconnectOk: bool)
      modifies this
      ensures shutdownRequested
      ensures actions == old(actions) + ShutdownActions(reason, disconnectOk)
    {
      actions := actions + [ShutdownStarted(reason)];
      shutdownRequested := true;
      actions := actions + [Disconnect(disconnectOk)];
    }

    /** The try block of one cycle; returns the exception that ended it early. */
    method TryCycle(r: Replies) returns (failure: Option<Failure>)
      modifies this
      ensures shutdownRequested == old(shutdownRequested)
      ensures actions == old(actions) + Attempted(config.ticker, r).actions
      ensures failure == Attempted(config.ticker, r).failure
    {
      actions := actions + [ReadPrice];
      if r.price.None? {
        return Some(PriceUnavailable);
      }
      var price := r.price.value;
      actions := actions + [ReadPosition];
      if r.position.None? {
        return Some(PositionUnavailable);
      }
      var qty := r.position.value;
      var decision := Rebalance(price, qty, TargetShortUsd, MinOrderUsd);
      match decision {
        case NoAction =>
          failure := None;
        case ZeroPrice =>
          failure := Some(DivisionByZero);
        case Order(o) =>
          actions := actions + [PlaceOrder(config.ticker, o.side, o.quantity)];
          failure := if r.orderAccepted then None else Some(OrderRejected);
      }
    }

    /** One iteration of the loop: the try block, its handler and the
        finally that always sleeps. */
    method RunCycle(r: Replies)
      modifies this
      ensures shutdownRequested == old(shutdownRequested)
      ensures actions == old(actions) + CycleActions(config, r)
    {
      var failure := TryCycle(r);
      if failure.Some? {
        actions := actions + [CycleError(failure.value)];
      }
      actions := actions + [Sleep(config.waitTime)];
    }

    /** The sleep at the end of a cycle (or after connecting), with what
        happens from outside meanwhile: each outside shutdown call runs
        graceful_shutdown; an exception ends the sleep and is returned. */
    method SleepThrough(events: seq<Interference>) returns (raised: Option<Raised>)
      modifies this
      ensures var s := DuringSleep(old(shutdownRequested), events);
        && actions == old(actions) + s.actions
        && shutdownRequested == s.requested
        && raised == s.raised
    {
      ghost var goal := DuringSleep(shutdownRequested, events);
      ghost var start := actions;
      var i := 0;
      raised := None;
      while i < |events| && raised.None?
        invariant 0 <= i <= |events|
        invariant raised.None? ==>
          var s := DuringSleep(shutdownRequested, events[i..]);
          start + goal.actions == actions + s.actions && goal.requested == s.requested && goal.raised == s.raised
        invariant raised.Some? ==>
          start + goal.actions == actions && goal.requested == shutdownRequested && goal.raised == raised
        decreases |events| - i
      {
        assert events[i..][1..] == events[i + 1..];
        match events[i] {
          case ExternalShutdown(reason, ok) =>
            ghost var before := actions;
            GracefulShutdown(reason, ok);
            assert before + ShutdownActions(reason, ok) + DuringSleep(true, events[i + 1..]).actions
                == before + (ShutdownActions(reason, ok) + DuringSleep(true, events[i + 1..]).actions);
          case Raise(e) =>
            raised := Some(e);
        }
        i := i + 1;
      }
      if raised.None? {
        assert events[i..] == [];
      }
    }

    /** The handlers at the end of run and its finally: an interrupt or an
        ordinary exception shuts down with its reason; a cancellation only
        reaches the final line. */
    method Escaped(e: Raised, disconnectOk: bool)
      modifies this
      ensures var r := Escape(e, old(shutdownRequested), disconnectOk);
        actions == old(actions) + r.actions && shutdownRequested == r.shutdownRequested
    {
      match e {
        case KeyboardInterrupt => GracefulShutdown(InterruptReason, disconnectOk);
        case Error => GracefulShutdown(CriticalReason, disconnectOk);
        case Cancellation =>
      }
      actions := actions + [ShutdownComplete];
    }

    /** One pass of the loop's body: the cycle, then its sleep with what
        happens from outside meanwhile. */
    method CycleWithSleep(c: CycleInput) returns (raised: Option<Raised>)
      modifies this
      ensures var s := DuringSleep(old(shutdownRequested), c.during);
        && actions == old(actions) + (CycleActions(config, c.replies) + s.actions)
        && shutdownRequested == s.requested
        && raised == s.raised
    {
      RunCycle(c.replies);
      raised := SleepThrough(c.during);
    }

    /** The main loop from its guard on, then run's handlers and its
        finally.  Returns whether run returned before the inputs ran out. */
    method MainLoop(cycles: seq<CycleInput>, disconnectOk: bool) returns (stopped: bool)
      modifies this
      ensures var r := Loop(config, old(shutdownRequested), cycles, disconnectOk);
        && actions == old(actions) + r.actions
        && shutdownRequested == r.shutdownRequested
        && stopped == r.stopped
    {
      ghost var goal := Then(actions, Loop(config, shutdownRequested, cycles, disconnectOk));
      var i := 0;
      var raised: Option<Raised> := None;
      while raised.None? && !shutdownRequested && i < |cycles|
        invariant 0 <= i <= |cycles|
        invariant raised.None? ==> Then(actions, Loop(config, shutdownRequested, cycles[i..], disconnectOk)) == goal
        invariant raised.Some? ==> Then(actions, Escape(raised.value, shutdownRequested, disconnectOk)) == goal
        decreases |cycles| - i
      {
        ghost var before := actions;
        assert cycles[i..][1..] == cycles[i + 1..];
        raised := CycleWithSleep(cycles[i]);
        ghost var s := DuringSleep(false, cycles[i].during);
        ThenThen(before, CycleActions(config, cycles[i].replies) + s.actions,
                 AfterSleep(config, s, cycles[i + 1..], disconnectOk));
        i := i + 1;
      }
      if raised.Some? {
        Escaped(raised.value, disconnectOk);
        stopped := true;
      } else {
        if !shutdownRequested {
          assert cycles[i..] == [];
        }
        stopped := shutdownRequested;
        if stopped {
          actions := actions + [ShutdownComplete];
        }
      }
    }

    /** What run does once the settle wait is over: the handlers and the
        finally if an exception came during the wait, the main loop
        otherwise. */
    method AfterSettle(raised: Option<Raised>, cycles: seq<CycleInput>, disconnectOk: bool) returns (stopped: bool)
      modifies this
      ensures var r := AfterSleep(config, Sleeping([], old(shutdownRequested), raised), cycles, disconnectOk);
        && actions == old(actions) + r.actions
        && shutdownRequested == r.shutdownRequested
        && stopped == r.stopped
    {
      if raised.Some? {
        Escaped(raised.value, disconnectOk);
        stopped := true;
      } else {
        stopped := MainLoop(cycles, disconnectOk);
      }
    }

    /** The run method: connect, wait for the connection to settle, then the
        main loop.  Returns whether run returned, i.e. the bot stopped,
        before the inputs ran out. */
    method Run(connect: ConnectOutcome, cycles: seq<CycleInput>, disconnectOk: bool) returns (stopped: bool)
      modifies this
      ensures var r := RunSpec(config, old(shutdownRequested), connect, cycles, disconnectOk);
        && actions == old(actions) + r.actions
        && shutdownRequested == r.shutdownRequested
        && stopped == r.stopped
    {
      ghost var start := actions;
      actions := actions + [Connect];
      if connect.ConnectRaised? {
        Escaped(connect.e, disconnectOk);
        assert actions == start + ([Connect] + Escape(connect.e, old(shutdownRequested), disconnectOk).actions);
        return true;
      }
      actions := actions + [Sleep(SettleSeconds)];
      ghost var s := DuringSleep(shutdownRequested, connect.settle);
      var raised := SleepThrough(connect.settle);
      assert actions == start + ([Connect, Sleep(SettleSeconds)] + s.actions);
      stopped := AfterSettle(raised, cycles, disconnectOk);
      assert AfterSleep(config, Sleeping([], s.requested, s.raised), cycles, disconnectOk)
          == AfterSleep(config, s, cycles, disconnectOk);
      assert actions == start + (([Connect, Sleep(SettleSeconds)] + s.actions) + AfterSleep(config, s, cycles, disconnectOk).actions);
    }
  }
}
