/**
  Properties of the action trace of the control loop: how a cycle is
  shaped, that failures stay inside their cycle, that reads come before
  orders, and how every run ends.
 */
module LoopProperties {
  import opened Wrappers
  import opened Config
  import opened Rebalancer
  import opened ControlLoop

  /** The kinds of action the properties below count. */
  datatype Kind = Sleeps | PriceReads | Orders | ShutdownStarts | Disconnects | Completions

  predicate Is(a: Action, k: Kind)
  {
    match k
    case Sleeps => a.Sleep?
    case PriceReads => a.ReadPrice?
    case Orders => a.PlaceOrder?
    case ShutdownStarts => a.ShutdownStarted?
    case Disconnects => a.Disconnect?
    case Completions => a.ShutdownComplete?
  }

  /** The number of actions of kind `k` in `t`. */
  function Count(t: seq<Action>, k: Kind): nat
  {
    if t == [] then 0 else (if Is(t[0], k) then 1 else 0) + Count(t[1..], k)
  }

  lemma {:induction false} CountAppend(a: seq<Action>, b: seq<Action>, k: Kind)
    ensures Count(a + b, k) == Count(a, k) + Count(b, k)
  {
    if a == [] {
      assert a + b == b;
    } else {
      assert (a + b)[1..] == a[1..] + b;
      CountAppend(a[1..], b, k);
    }
  }

  lemma CountsAppend(a: seq<Action>, b: seq<Action>)
    ensures forall k :: Count(a + b, k) == Count(a, k) + Count(b, k)
  {
    forall k {
      CountAppend(a, b, k);
    }
  }

  lemma {:induction false} CountNone(t: seq<Action>, k: Kind)
    requires forall i :: 0 <= i < |t| ==> !Is(t[i], k)
    ensures Count(t, k) == 0
  {
    if t != [] {
      CountNone(t[1..], k);
    }
  }

  lemma {:induction false} CountOne(t: seq<Action>, k: Kind, j: nat)
    requires j < |t| && Is(t[j], k)
    requires forall i :: 0 <= i < |t| && i != j ==> !Is(t[i], k)
    ensures Count(t, k) == 1
  {
    if j == 0 {
      CountNone(t[1..], k);
    } else {
      CountOne(t[1..], k, j - 1);
    }
  }

  /** The number of outside shutdown calls among `events`. */
  function OutsideCallsIn(events: seq<Interference>): nat
  {
    if events == [] then 0 else (if events[0].ExternalShutdown? then 1 else 0) + OutsideCallsIn(events[1..])
  }

  /** The number of outside shutdown calls in the inputs of `cycles`. */
  function OutsideCalls(cycles: seq<CycleInput>): nat
  {
    if cycles == [] then 0 else OutsideCallsIn(cycles[0].during) + OutsideCalls(cycles[1..])
  }

  /** Something happens from outside during the sleep of some cycle. */
  predicate Interfered(cycles: seq<CycleInput>)
  {
    exists i :: 0 <= i < |cycles| && cycles[i].during != []
  }

  /** Every order in `t` comes right after a price read and a position read. */
  predicate OrdersFollowReads(t: seq<Action>)
  {
    forall i :: 0 <= i < |t| && t[i].PlaceOrder? ==> 2 <= i && t[i - 2] == ReadPrice && t[i - 1] == ReadPosition
  }

  lemma {:induction false} OrdersFollowReadsAppend(a: seq<Action>, b: seq<Action>)
    requires OrdersFollowReads(a) && OrdersFollowReads(b)
    ensures OrdersFollowReads(a + b)
  {
  }

  // ---------------------------------------------------------------------
  // One cycle

  /** The try block of a cycle reads the price first, once, places at most
      one order, right after the two reads, and neither sleeps nor shuts
      down. */
  lemma AttemptShape(ticker: string, r: Replies)
    ensures var t := Attempted(ticker, r).actions;
      && 1 <= |t| <= 3 && t[0] == ReadPrice && (|t| == 1 ==> Attempted(ticker, r).failure.Some?)
      && Count(t, PriceReads) == 1 && Count(t, Orders) == (if |t| == 3 then 1 else 0)
      && Count(t, Sleeps) == 0 && Count(t, ShutdownStarts) == 0
      && Count(t, Disconnects) == 0 && Count(t, Completions) == 0
      && OrdersFollowReads(t)
  {
    var t := Attempted(ticker, r).actions;
    assert forall i :: 0 < i < |t| ==> t[i].ReadPosition? || t[i].PlaceOrder?;
    assert forall i :: 0 <= i < |t| && t[i].PlaceOrder? ==> i == 2 && t[1] == ReadPosition;
    CountOne(t, PriceReads, 0);
    CountNone(t, Sleeps);
    CountNone(t, ShutdownStarts);
    CountNone(t, Disconnects);
    CountNone(t, Completions);
    if |t| == 3 {
      CountOne(t, Orders, 2);
    } else {
      CountNone(t, Orders);
    }
  }

  /** A try block with the shape AttemptShape gives, followed by the
      handler's error line if it failed and the sleep. */
  lemma CycleShapeOf(a: Attempt, waitTime: int)
    requires var t := a.actions;
      && 1 <= |t| <= 3 && t[0] == ReadPrice && (|t| == 1 ==> a.failure.Some?)
      && Count(t, PriceReads) == 1 && Count(t, Orders) <= 1
      && Count(t, Sleeps) == 0 && Count(t, ShutdownStarts) == 0
      && Count(t, Disconnects) == 0 && Count(t, Completions) == 0
      && OrdersFollowReads(t)
    ensures var t := a.actions + (if a.failure.Some? then [CycleError(a.failure.value)] else []) + [Sleep(waitTime)];
      && 3 <= |t| <= 5 && t[0] == ReadPrice && t[|t| - 1] == Sleep(waitTime)
      && Count(t, Sleeps) == 1 && Count(t, PriceReads) == 1 && Count(t, Orders) <= 1
      && Count(t, ShutdownStarts) == 0 && Count(t, Disconnects) == 0 && Count(t, Completions) == 0
      && OrdersFollowReads(t)
  {
    var e: seq<Action> := if a.failure.Some? then [CycleError(a.failure.value)] else [];
    var tail := e + [Sleep(waitTime)];
    var t := a.actions + e + [Sleep(waitTime)];
    assert t == a.actions + tail;
    assert |t| == |a.actions| + |e| + 1 && t[0] == ReadPrice && t[|t| - 1] == Sleep(waitTime);
    assert forall i :: 0 <= i < |tail| ==> tail[i].CycleError? || tail[i] == Sleep(waitTime);
    CountOne(tail, Sleeps, |tail| - 1);
    CountNone(tail, PriceReads);
    CountNone(tail, Orders);
    CountNone(tail, ShutdownStarts);
    CountNone(tail, Disconnects);
    CountNone(tail, Completions);
    CountAppend(a.actions, tail, Sleeps);
    CountAppend(a.actions, tail, PriceReads);
    CountAppend(a.actions, tail, Orders);
    CountAppend(a.actions, tail, ShutdownStarts);
    CountAppend(a.actions, tail, Disconnects);
    CountAppend(a.actions, tail, Completions);
    OrdersFollowReadsAppend(a.actions, tail);
  }

  /** A cycle starts with the price read, ends with exactly one sleep of the
      configured length, places at most one order, always right after the
      two reads, and neither shuts down nor ends the run. */
  lemma CycleShape(cfg: TradingConfig, r: Replies)
    ensures var t := CycleActions(cfg, r);
      && 3 <= |t| <= 5 && t[0] == ReadPrice && t[|t| - 1] == Sleep(cfg.waitTime)
      && Count(t, Sleeps) == 1 && Count(t, PriceReads) == 1 && Count(t, Orders) <= 1
      && Count(t, ShutdownStarts) == 0 && Count(t, Disconnects) == 0 && Count(t, Completions) == 0
      && OrdersFollowReads(t)
  {
    AttemptShape(cfg.ticker, r);
    CycleShapeOf(Attempted(cfg.ticker, r), cfg.waitTime);
  }

  /** A missing price ends the cycle before the position is read and
      before any order. */
  lemma CycleWithoutPrice(cfg: TradingConfig, r: Replies)
    requires r.price.None?
    ensures CycleActions(cfg, r) == [ReadPrice, CycleError(PriceUnavailable), Sleep(cfg.waitTime)]
  {
  }

  /** A missing position ends the cycle before any order. */
  lemma CycleWithoutPosition(cfg: TradingConfig, r: Replies)
    requires r.price.Some? && r.position.None?
    ensures CycleActions(cfg, r) == [ReadPrice, ReadPosition, CycleError(PositionUnavailable), Sleep(cfg.waitTime)]
  {
  }

  /** Within the tolerated band the cycle takes the no-action branch: no
      order and no error, just the reads and the sleep. */
  lemma CycleWithinBand(cfg: TradingConfig, r: Replies)
    requires r.price.Some? && r.position.Some?
    requires Abs(Deviation(r.price.value, r.position.value, TargetShortUsd)) <= MinOrderUsd
    ensures CycleActions(cfg, r) == [ReadPrice, ReadPosition, Sleep(cfg.waitTime)]
  {
  }

  /** A cycle places an order exactly when both reads succeed and the rule
      asks for one, and then places precisely the rule's order; an order
      the exchange rejects is logged as that cycle's error. */
  lemma CycleOrder(cfg: TradingConfig, r: Replies)
    ensures var t := CycleActions(cfg, r);
      (exists i :: 0 <= i < |t| && t[i].PlaceOrder?) <==>
        (r.price.Some? && r.position.Some? &&
         Rebalance(r.price.value, r.position.value, TargetShortUsd, MinOrderUsd).Order?)
    ensures r.price.Some? && r.position.Some? ==>
      var d := Rebalance(r.price.value, r.position.value, TargetShortUsd, MinOrderUsd);
      d.Order? ==>
        && CycleActions(cfg, r)[2] == PlaceOrder(cfg.ticker, d.intent.side, d.intent.quantity)
        && CycleActions(cfg, r)[3] == (if r.orderAccepted then Sleep(cfg.waitTime) else CycleError(OrderRejected))
  {
  }

  // ---------------------------------------------------------------------
  // Shutdown

  /** One call of graceful_shutdown logs its start and disconnects once. */
  lemma ShutdownActionsCounts(reason: string, ok: bool)
    ensures var t := ShutdownActions(reason, ok);
      && Count(t, ShutdownStarts) == 1 && Count(t, Disconnects) == 1
      && Count(t, Sleeps) == 0 && Count(t, PriceReads) == 0 && Count(t, Orders) == 0
      && Count(t, Completions) == 0 && OrdersFollowReads(t)
  {
    var t := ShutdownActions(reason, ok);
    CountOne(t, ShutdownStarts, 0);
    CountOne(t, Disconnects, 1);
    CountNone(t, Sleeps);
    CountNone(t, PriceReads);
    CountNone(t, Orders);
    CountNone(t, Completions);
  }

  /** During a sleep every outside shutdown call disconnects once more (the
      calls are not idempotent), the flag ends set exactly when it was set
      before or some call came, and anything from outside, a call or an
      exception, ends the loop after this sleep. */
  lemma {:induction false} SleepFacts(requested: bool, events: seq<Interference>)
    ensures var s := DuringSleep(requested, events);
      && Count(s.actions, Sleeps) == 0 && Count(s.actions, PriceReads) == 0
      && Count(s.actions, Orders) == 0 && Count(s.actions, Completions) == 0
      && OrdersFollowReads(s.actions)
      && Count(s.actions, Disconnects) == Count(s.actions, ShutdownStarts)
      && Count(s.actions, ShutdownStarts) <= OutsideCallsIn(events)
      && (s.raised.None? ==> Count(s.actions, ShutdownStarts) == OutsideCallsIn(events))
      && (s.requested <==> requested || Count(s.actions, ShutdownStarts) > 0)
      && (events != [] ==> s.requested || s.raised.Some?)
    decreases |events|
  {
    if events != [] && events[0].ExternalShutdown? {
      var first := ShutdownActions(events[0].reason, events[0].disconnectOk);
      var rest := DuringSleep(true, events[1..]);
      SleepFacts(true, events[1..]);
      ShutdownActionsCounts(events[0].reason, events[0].disconnectOk);
      CountsAppend(first, rest.actions);
      OrdersFollowReadsAppend(first, rest.actions);
    }
  }

  /** How every way out of the loop or of run ends: each order follows its
      two reads, the final line is last and appears exactly when run stopped,
      a run still going has the flag clear, each shutdown call disconnects
      once, and the flag is set exactly when it was set at the start
      (`requested`) or some shutdown call ran. */
  predicate ProperEnding(r: RunResult, requested: bool)
  {
    && OrdersFollowReads(r.actions)
    && Count(r.actions, Completions) == (if r.stopped then 1 else 0)
    && (r.stopped ==> r.actions != [] && r.actions[|r.actions| - 1] == ShutdownComplete)
    && (!r.stopped ==> !r.shutdownRequested)
    && Count(r.actions, Disconnects) == Count(r.actions, ShutdownStarts)
    && (r.shutdownRequested <==> requested || Count(r.actions, ShutdownStarts) > 0)
  }

  /** A prefix without the final line, whose shutdown calls each disconnect
      once and which leaves the flag at `mid`, keeps a proper ending. */
  lemma ThenKeepsProperEnding(p: seq<Action>, r: RunResult, requested: bool, mid: bool)
    requires OrdersFollowReads(p) && Count(p, Completions) == 0
    requires Count(p, Disconnects) == Count(p, ShutdownStarts)
    requires mid <==> requested || Count(p, ShutdownStarts) > 0
    requires ProperEnding(r, mid)
    ensures ProperEnding(Then(p, r), requested)
  {
    CountAppend(p, r.actions, Completions);
    CountAppend(p, r.actions, Disconnects);
    CountAppend(p, r.actions, ShutdownStarts);
    OrdersFollowReadsAppend(p, r.actions);
    if r.stopped {
      assert (p + r.actions)[|p + r.actions| - 1] == r.actions[|r.actions| - 1];
    }
  }

  /** The trace of run's handler for an interrupt or an exception: one
      shutdown call, then the final line. */
  lemma HandledFacts(reason: string, requested: bool, ok: bool)
    ensures var r := RunResult(ShutdownActions(reason, ok) + [ShutdownComplete], true, true);
      && ProperEnding(r, requested)
      && Count(r.actions, Sleeps) == 0 && Count(r.actions, PriceReads) == 0 && Count(r.actions, Orders) == 0
      && Count(r.actions, ShutdownStarts) == 1
  {
    var t := ShutdownActions(reason, ok) + [ShutdownComplete];
    CountNone(t, Sleeps);
    CountNone(t, PriceReads);
    CountNone(t, Orders);
    CountOne(t, Completions, 2);
    CountOne(t, ShutdownStarts, 0);
    CountOne(t, Disconnects, 1);
  }

  /** run's handlers and finally: the run stops with the final line last; an
      interrupt or an ordinary exception shuts down once and sets the flag;
      a cancellation reaches the final line without shutting down and
      leaves the flag as it was. */
  lemma EscapeFacts(e: Raised, requested: bool, ok: bool)
    ensures var r := Escape(e, requested, ok);
      && r.stopped && ProperEnding(r, requested)
      && Count(r.actions, Sleeps) == 0 && Count(r.actions, PriceReads) == 0 && Count(r.actions, Orders) == 0
      && Count(r.actions, ShutdownStarts) == (if e == Cancellation then 0 else 1)
      && r.shutdownRequested == (requested || e != Cancellation)
  {
    match e
    case KeyboardInterrupt => HandledFacts(InterruptReason, requested, ok);
    case Error => HandledFacts(CriticalReason, requested, ok);
    case Cancellation =>
      var t := [ShutdownComplete];
      CountNone(t, Sleeps);
      CountNone(t, PriceReads);
      CountNone(t, Orders);
      CountNone(t, ShutdownStarts);
      CountNone(t, Disconnects);
      CountOne(t, Completions, 0);
  }

  // ---------------------------------------------------------------------
  // The loop

  /** A cycle during whose sleep nothing happens from outside is followed
      by the next one, whatever its replies were: failures are isolated in
      their cycle. */
  lemma CycleIsolation(cfg: TradingConfig, c: CycleInput, rest: seq<CycleInput>, disconnectOk: bool)
    requires c.during == []
    ensures Loop(cfg, false, [c] + rest, disconnectOk)
         == Then(CycleActions(cfg, c.replies), Loop(cfg, false, rest, disconnectOk))
  {
    assert ([c] + rest)[1..] == rest;
    assert CycleActions(cfg, c.replies) + [] == CycleActions(cfg, c.replies);
  }

  /** With the flag clear at the guard, the loop stops only when something
      happens from outside during some cycle's sleep (a shutdown call, an
      interrupt, an exception or a cancellation); otherwise every cycle
      runs, one sleep each, and the flag stays clear. */
  lemma {:induction false} LoopStopsOnlyOnInterference(cfg: TradingConfig, cycles: seq<CycleInput>, disconnectOk: bool)
    ensures var r := Loop(cfg, false, cycles, disconnectOk);
      && (r.stopped <==> Interfered(cycles))
      && (!r.stopped ==> !r.shutdownRequested && Count(r.actions, Sleeps) == |cycles|)
  {
    if cycles != [] {
      var c := cycles[0];
      var rest := cycles[1..];
      if c.during == [] {
        CycleIsolation(cfg, c, rest, disconnectOk);
        assert cycles == [c] + rest;
        LoopStopsOnlyOnInterference(cfg, rest, disconnectOk);
        CycleShape(cfg, c.replies);
        CountAppend(CycleActions(cfg, c.replies), Loop(cfg, false, rest, disconnectOk).actions, Sleeps);
        if Interfered(rest) {
          var j :| 0 <= j < |rest| && rest[j].during != [];
          assert cycles[j + 1] == rest[j];
        }
        if Interfered(cycles) {
          var j :| 0 <= j < |cycles| && cycles[j].during != [];
          assert rest[j - 1] == cycles[j];
        }
      } else {
        SleepFacts(false, c.during);
        var s := DuringSleep(false, c.during);
        var after := AfterSleep(cfg, s, rest, disconnectOk);
        if s.raised.Some? {
          EscapeFacts(s.raised.value, s.requested, disconnectOk);
        } else {
          assert after == Loop(cfg, true, rest, disconnectOk);
        }
        assert after.stopped;
        assert Loop(cfg, false, cycles, disconnectOk) == Then(CycleActions(cfg, c.replies) + s.actions, after);
        assert cycles[0].during != [];
      }
    }
  }

  /** With the flag clear, the loop stops at the first cycle whose sleep is
      disturbed from outside: the cycles before it run, that cycle runs, and
      no further cycle starts. */
  lemma {:induction false} LoopStopsAtFirstDisturbance(cfg: TradingConfig, cycles: seq<CycleInput>, k: nat, disconnectOk: bool)
    requires k < |cycles| && cycles[k].during != []
    requires forall j :: 0 <= j < k ==> cycles[j].during == []
    ensures var r := Loop(cfg, false, cycles, disconnectOk);
      && r.stopped
      && Count(r.actions, Sleeps) == k + 1
      && Count(r.actions, PriceReads) == k + 1
    decreases k
  {
    var c := cycles[0];
    var rest := cycles[1..];
    if k == 0 {
      var s := DuringSleep(false, c.during);
      var p := CycleActions(cfg, c.replies) + s.actions;
      var after := AfterSleep(cfg, s, rest, disconnectOk);
      CycleAndSleep(cfg, c);
      SleepFacts(false, c.during);
      if s.raised.Some? {
        EscapeFacts(s.raised.value, s.requested, disconnectOk);
      } else {
        assert s.requested;
        assert after == Loop(cfg, true, rest, disconnectOk) == RunResult([ShutdownComplete], true, true);
        CountNone(after.actions, Sleeps);
        CountNone(after.actions, PriceReads);
      }
      assert Loop(cfg, false, cycles, disconnectOk) == Then(p, after);
      CountAppend(p, after.actions, Sleeps);
      CountAppend(p, after.actions, PriceReads);
    } else {
      assert cycles == [c] + rest;
      CycleIsolation(cfg, c, rest, disconnectOk);
      forall j | 0 <= j < k - 1
        ensures rest[j].during == []
      {
        assert rest[j] == cycles[j + 1];
      }
      LoopStopsAtFirstDisturbance(cfg, rest, k - 1, disconnectOk);
      CycleShape(cfg, c.replies);
      CountAppend(CycleActions(cfg, c.replies), Loop(cfg, false, rest, disconnectOk).actions, Sleeps);
      CountAppend(CycleActions(cfg, c.replies), Loop(cfg, false, rest, disconnectOk).actions, PriceReads);
    }
  }

  /** A single outside shutdown call during a cycle's sleep: the sleep ends
      normally, the guard then sees the flag, no new cycle starts, whatever
      inputs remain, and the trace has exactly one disconnect. */
  lemma ShutdownDuringSleepEndsLoop(cfg: TradingConfig, r: Replies, reason: string, x: bool,
                                    rest: seq<CycleInput>, disconnectOk: bool)
    ensures Loop(cfg, false, [CycleInput(r, [ExternalShutdown(reason, x)])] + rest, disconnectOk)
         == Then(CycleActions(cfg, r) + ShutdownActions(reason, x), RunResult([ShutdownComplete], true, true))
    ensures Count(Loop(cfg, false, [CycleInput(r, [ExternalShutdown(reason, x)])] + rest, disconnectOk).actions,
                  Disconnects) == 1
  {
    var events := [ExternalShutdown(reason, x)];
    var cycles := [CycleInput(r, events)] + rest;
    assert cycles[0] == CycleInput(r, events) && cycles[1..] == rest;
    assert events[1..] == [];
    assert DuringSleep(false, events) == Sleeping(ShutdownActions(reason, x) + [], true, None);
    assert ShutdownActions(reason, x) + [] == ShutdownActions(reason, x);
    var s := Sleeping(ShutdownActions(reason, x), true, None);
    assert AfterSleep(cfg, s, rest, disconnectOk) == RunResult([ShutdownComplete], true, true);
    var c := CycleActions(cfg, r);
    CycleShape(cfg, r);
    ShutdownActionsCounts(reason, x);
    CountAppend(c, ShutdownActions(reason, x), Disconnects);
    CountNone([ShutdownComplete], Disconnects);
    CountAppend(c + ShutdownActions(reason, x), [ShutdownComplete], Disconnects);
  }

  /** The flag checked at the top of the loop: once it is set, no further
      cycle runs and run ends at once. */
  lemma LoopGuard(cfg: TradingConfig, cycles: seq<CycleInput>, disconnectOk: bool)
    ensures Loop(cfg, true, cycles, disconnectOk) == RunResult([ShutdownComplete], true, true)
  {
  }

  /** What the loop's trace promises for the inputs `cycles`, started with
      the flag at `requested`; see LoopTrace. */
  predicate LoopFacts(r: RunResult, requested: bool, cycles: seq<CycleInput>)
  {
    && ProperEnding(r, requested)
    && Count(r.actions, PriceReads) == Count(r.actions, Sleeps)
    && Count(r.actions, Orders) <= Count(r.actions, Sleeps)
    && Count(r.actions, ShutdownStarts) <= OutsideCalls(cycles) + 1
  }

  /** A cycle and what happens during its sleep: one sleep, one price
      read, at most one order after its reads, no final line, a disconnect
      for each shutdown call, and the flag set after the sleep exactly when
      a shutdown call came. */
  lemma CycleAndSleep(cfg: TradingConfig, c: CycleInput)
    ensures var s := DuringSleep(false, c.during);
      var p := CycleActions(cfg, c.replies) + s.actions;
      && Count(p, Sleeps) == 1 && Count(p, PriceReads) == 1 && Count(p, Orders) <= 1
      && Count(p, Completions) == 0 && OrdersFollowReads(p)
      && Count(p, Disconnects) == Count(p, ShutdownStarts)
      && Count(p, ShutdownStarts) <= OutsideCallsIn(c.during)
      && (s.requested <==> Count(p, ShutdownStarts) > 0)
  {
    var done := CycleActions(cfg, c.replies);
    var s := DuringSleep(false, c.during);
    CycleShape(cfg, c.replies);
    SleepFacts(false, c.during);
    CountAppend(done, s.actions, Sleeps);
    CountAppend(done, s.actions, PriceReads);
    CountAppend(done, s.actions, Orders);
    CountAppend(done, s.actions, Completions);
    CountAppend(done, s.actions, Disconnects);
    CountAppend(done, s.actions, ShutdownStarts);
    OrdersFollowReadsAppend(done, s.actions);
  }

  /** One cycle, with the flag clear, followed by its sleep and whatever
      comes after it keeps the loop's facts. */
  lemma CycleStep(cfg: TradingConfig, cycles: seq<CycleInput>, disconnectOk: bool)
    requires cycles != []
    requires var s := DuringSleep(false, cycles[0].during);
      s.raised.None? ==> LoopFacts(Loop(cfg, s.requested, cycles[1..], disconnectOk), s.requested, cycles[1..])
    ensures LoopFacts(Loop(cfg, false, cycles, disconnectOk), false, cycles)
  {
    var s := DuringSleep(false, cycles[0].during);
    var p := CycleActions(cfg, cycles[0].replies) + s.actions;
    var after := AfterSleep(cfg, s, cycles[1..], disconnectOk);
    CycleAndSleep(cfg, cycles[0]);
    if s.raised.Some? {
      EscapeFacts(s.raised.value, s.requested, disconnectOk);
    }
    assert Loop(cfg, false, cycles, disconnectOk) == Then(p, after);
    ThenKeepsProperEnding(p, after, false, s.requested);
    CountAppend(p, after.actions, Sleeps);
    CountAppend(p, after.actions, PriceReads);
    CountAppend(p, after.actions, Orders);
    CountAppend(p, after.actions, ShutdownStarts);
  }

  /** Facts about the loop's trace, by induction over the cycles: it ends
      properly, every cycle reads the price once and sleeps once and places
      at most one order, and run itself adds at most one shutdown call to
      those from outside. */
  lemma {:induction false} LoopTrace(cfg: TradingConfig, requested: bool, cycles: seq<CycleInput>, disconnectOk: bool)
    ensures var r := Loop(cfg, requested, cycles, disconnectOk);
      && ProperEnding(r, requested)
      && Count(r.actions, PriceReads) == Count(r.actions, Sleeps)
      && Count(r.actions, Orders) <= Count(r.actions, Sleeps)
      && Count(r.actions, ShutdownStarts) <= OutsideCalls(cycles) + 1
    decreases |cycles|
  {
    var r := Loop(cfg, requested, cycles, disconnectOk);
    if requested {
      CountOne(r.actions, Completions, 0);
      CountNone(r.actions, Sleeps);
      CountNone(r.actions, PriceReads);
      CountNone(r.actions, Orders);
      CountNone(r.actions, ShutdownStarts);
      CountNone(r.actions, Disconnects);
    } else if cycles != [] {
      var s := DuringSleep(false, cycles[0].during);
      if s.raised.None? {
        LoopTrace(cfg, s.requested, cycles[1..], disconnectOk);
      }
      CycleStep(cfg, cycles, disconnectOk);
    }
  }

  /** graceful_shutdown is not idempotent: two shutdown calls during one
      sleep disconnect twice. */
  lemma ShutdownTwiceDisconnectsTwice(cfg: TradingConfig, r: Replies, a: string, b: string, x: bool, y: bool, ok: bool)
    ensures Count(Loop(cfg, false, [CycleInput(r, [ExternalShutdown(a, x), ExternalShutdown(b, y)])], ok).actions,
                  Disconnects) == 2
  {
    var c := CycleActions(cfg, r);
    CycleShape(cfg, r);
    var twice := [ExternalShutdown(a, x), ExternalShutdown(b, y)];
    assert twice[1..] == [ExternalShutdown(b, y)];
    assert twice[1..][1..] == [];
    assert DuringSleep(true, twice[1..]) == Sleeping(ShutdownActions(b, y) + [], true, None);
    assert ShutdownActions(b, y) + [] == ShutdownActions(b, y);
    var s := DuringSleep(false, twice);
    assert s == Sleeping(ShutdownActions(a, x) + ShutdownActions(b, y), true, None);
    ShutdownActionsCounts(a, x);
    ShutdownActionsCounts(b, y);
    CountAppend(ShutdownActions(a, x), ShutdownActions(b, y), Disconnects);
    assert [CycleInput(r, twice)][1..] == [];
    assert AfterSleep(cfg, s, [], ok) == RunResult([ShutdownComplete], true, true);
    assert Loop(cfg, false, [CycleInput(r, twice)], ok).actions == (c + s.actions) + [ShutdownComplete];
    CountAppend(c, s.actions, Disconnects);
    CountNone([ShutdownComplete], Disconnects);
    CountAppend(c + s.actions, [ShutdownComplete], Disconnects);
  }

  /** A shutdown call followed by an interrupt during the same sleep also
      disconnects twice: run's handler shuts down again. */
  lemma ShutdownThenInterruptDisconnectsTwice(cfg: TradingConfig, r: Replies, a: string, x: bool, ok: bool)
    ensures Count(Loop(cfg, false, [CycleInput(r, [ExternalShutdown(a, x), Raise(KeyboardInterrupt)])], ok).actions,
                  Disconnects) == 2
  {
    var c := CycleActions(cfg, r);
    CycleShape(cfg, r);
    var interrupted := [ExternalShutdown(a, x), Raise(KeyboardInterrupt)];
    assert interrupted[1..] == [Raise(KeyboardInterrupt)];
    assert DuringSleep(true, interrupted[1..]) == Sleeping([], true, Some(KeyboardInterrupt));
    var s := DuringSleep(false, interrupted);
    assert s == Sleeping(ShutdownActions(a, x) + [], true, Some(KeyboardInterrupt));
    assert ShutdownActions(a, x) + [] == ShutdownActions(a, x);
    ShutdownActionsCounts(a, x);
    var e := Escape(KeyboardInterrupt, true, ok);
    EscapeFacts(KeyboardInterrupt, true, ok);
    assert Loop(cfg, false, [CycleInput(r, interrupted)], ok).actions == (c + s.actions) + e.actions;
    CountAppend(c, s.actions, Disconnects);
    CountAppend(c + s.actions, e.actions, Disconnects);
  }

  // ---------------------------------------------------------------------
  // A whole run

  /** A connect call that raises leads to run's handler and final line
      without any cycle: an interrupt or an ordinary exception shuts down
      once, a cancellation does not shut down. */
  lemma ConnectFailureRunsNoCycle(cfg: TradingConfig, requested: bool, e: Raised,
                                  cycles: seq<CycleInput>, disconnectOk: bool)
    ensures var r := RunSpec(cfg, requested, ConnectRaised(e), cycles, disconnectOk);
      && r.stopped
      && r.shutdownRequested == (requested || e != Cancellation)
      && r.actions == [Connect]
           + (match e
              case KeyboardInterrupt => [ShutdownStarted(InterruptReason), Disconnect(disconnectOk)]
              case Error => [ShutdownStarted(CriticalReason), Disconnect(disconnectOk)]
              case Cancellation => [])
           + [ShutdownComplete]
  {
  }

  /** The outside shutdown calls among a run's inputs. */
  function OutsideCallsOfRun(connect: ConnectOutcome, cycles: seq<CycleInput>): nat
  {
    (if connect.Connected? then OutsideCallsIn(connect.settle) else 0) + OutsideCalls(cycles)
  }

  /** The connect call and the settle wait add one sleep and nothing else
      counted, and keep every order after its reads. */
  lemma AfterConnect(t: seq<Action>)
    ensures var u := [Connect, Sleep(SettleSeconds)] + t;
      && Count(u, Orders) == Count(t, Orders)
      && Count(u, PriceReads) == Count(t, PriceReads)
      && Count(u, ShutdownStarts) == Count(t, ShutdownStarts)
      && Count(u, Disconnects) == Count(t, Disconnects)
      && Count(u, Completions) == Count(t, Completions)
      && (OrdersFollowReads(t) ==> OrdersFollowReads(u))
  {
    var prefix := [Connect, Sleep(SettleSeconds)];
    assert OrdersFollowReads(prefix);
    if OrdersFollowReads(t) {
      OrdersFollowReadsAppend(prefix, t);
    }
    CountNone(prefix, Orders);
    CountNone(prefix, PriceReads);
    CountNone(prefix, ShutdownStarts);
    CountNone(prefix, Disconnects);
    CountNone(prefix, Completions);
    CountsAppend(prefix, t);
  }

  /** The shape of the trace RunTrace speaks about, for any connect outcome. */
  predicate RunFacts(r: RunResult, requested: bool, outside: nat)
  {
    && ProperEnding(r, requested)
    && Count(r.actions, Orders) <= Count(r.actions, PriceReads)
    && Count(r.actions, ShutdownStarts) <= outside + 1
  }

  /** RunTrace for a connect call that returns. */
  lemma RunTraceConnected(cfg: TradingConfig, requested: bool, settle: seq<Interference>,
                          cycles: seq<CycleInput>, disconnectOk: bool)
    ensures RunFacts(RunSpec(cfg, requested, Connected(settle), cycles, disconnectOk), requested,
                     OutsideCallsIn(settle) + OutsideCalls(cycles))
  {
    var s := DuringSleep(requested, settle);
    var after := AfterSleep(cfg, s, cycles, disconnectOk);
    SleepFacts(requested, settle);
    if s.raised.Some? {
      EscapeFacts(s.raised.value, s.requested, disconnectOk);
    } else {
      LoopTrace(cfg, s.requested, cycles, disconnectOk);
    }
    AfterConnect(s.actions);
    var p := [Connect, Sleep(SettleSeconds)] + s.actions;
    ThenKeepsProperEnding(p, after, requested, s.requested);
    CountAppend(p, after.actions, Orders);
    CountAppend(p, after.actions, PriceReads);
    CountAppend(p, after.actions, ShutdownStarts);
  }

  /** RunTrace for a connect call that raises. */
  lemma RunTraceRaised(cfg: TradingConfig, requested: bool, e: Raised,
                       cycles: seq<CycleInput>, disconnectOk: bool)
    ensures RunFacts(RunSpec(cfg, requested, ConnectRaised(e), cycles, disconnectOk), requested, 0)
  {
    var esc := Escape(e, requested, disconnectOk);
    EscapeFacts(e, requested, disconnectOk);
    CountNone([Connect], Orders);
    CountNone([Connect], PriceReads);
    CountNone([Connect], ShutdownStarts);
    CountNone([Connect], Disconnects);
    CountNone([Connect], Completions);
    ThenKeepsProperEnding([Connect], esc, requested, requested);
    CountAppend([Connect], esc.actions, Orders);
    CountAppend([Connect], esc.actions, PriceReads);
    CountAppend([Connect], esc.actions, ShutdownStarts);
  }

  /** The properties of a whole run: it ends properly (each order after its
      cycle's reads, the final line last whenever run returns, each shutdown
      call disconnecting once, the flag set exactly when it was set at the
      start or some shutdown call ran), places at most one order per price
      read, and run itself calls the shutdown at most once besides the calls
      from outside.  So a run started with the flag clear and without
      outside calls disconnects exactly once if it ends with the flag set,
      and not at all otherwise (still running, or cancelled). */
  lemma RunTrace(cfg: TradingConfig, requested: bool, connect: ConnectOutcome,
                 cycles: seq<CycleInput>, disconnectOk: bool)
    ensures var r := RunSpec(cfg, requested, connect, cycles, disconnectOk);
      && ProperEnding(r, requested)
      && Count(r.actions, Orders) <= Count(r.actions, PriceReads)
      && Count(r.actions, ShutdownStarts) <= OutsideCallsOfRun(connect, cycles) + 1
      && (!requested && OutsideCallsOfRun(connect, cycles) == 0 ==>
            Count(r.actions, Disconnects) == (if r.shutdownRequested then 1 else 0))
  {
    match connect
    case Connected(settle) =>
      RunTraceConnected(cfg, requested, settle, cycles, disconnectOk);
    case ConnectRaised(e) =>
      RunTraceRaised(cfg, requested, e, cycles, disconnectOk);
  }
}
