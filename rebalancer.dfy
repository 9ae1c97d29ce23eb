/**
  The rebalancing rule of TradingBot.run (trading_bot.py:117-126): compare
  the value of the short position with a fixed target and, when the gap is
  larger than a minimum order value, produce a market order that closes it.
  Amounts are exact reals; the source's float and Decimal rounding is not
  modelled.
 */
module Rebalancer {
  import opened Config

  /** The desired value of the short position, in USD. */
  const TargetShortUsd: real := 1000.0
  /** The smallest deviation, in USD, worth an order. */
  const MinOrderUsd: real := 5.0

  /** A market order the rule asks for. */
  datatype OrderIntent = OrderIntent(side: Side, quantity: real, notional: real)

  /** What one evaluation of the rule decides. */
  datatype Decision =
    | NoAction                 // the position is within the tolerated band
    | Order(intent: OrderIntent)
    | ZeroPrice                // an order is due but its size divides by a zero price

  function Abs(x: real): (r: real)
    ensures r >= 0.0 && (r == x || r == -x)
  {
    if x < 0.0 then -x else x
  }

  /** The value of a short position of `shortQty` units at `price`. */
  function Notional(price: real, shortQty: real): real
  {
    shortQty * price
  }

  /** How far the position's value is below the target (negative when above). */
  function Deviation(price: real, shortQty: real, target: real): real
  {
    target - Notional(price, shortQty)
  }

  /**
    The rule.  Nothing is done while the deviation is within `minOrder`;
    otherwise the order sells when the position is worth less than the
    target and buys when it is worth more, for the deviation's value in
    units of the instrument.  A zero price makes that division fail.
   */
  function Rebalance(price: real, shortQty: real, target: real, minOrder: real): (d: Decision)
    ensures d.NoAction? <==> Abs(Deviation(price, shortQty, target)) <= minOrder
    ensures d.ZeroPrice? <==> Abs(Deviation(price, shortQty, target)) > minOrder && price == 0.0
    ensures d.Order? ==>
      && (d.intent.side == Sell <==> Deviation(price, shortQty, target) > 0.0)
      && d.intent.notional == Abs(Deviation(price, shortQty, target))
      && d.intent.quantity * price == d.intent.notional
    ensures d.Order? && price > 0.0 && minOrder >= 0.0 ==> d.intent.quantity > 0.0
  {
    var delta := Deviation(price, shortQty, target);
    if Abs(delta) > minOrder then
      if price == 0.0 then ZeroPrice
      else
        var side := if delta > 0.0 then Sell else Buy;
        Order(OrderIntent(side, Abs(delta) / price, Abs(delta)))
    else
      NoAction
  }

  /** The short position after `o` is filled: a sell adds to it, a buy
      takes away from it. */
  function Fill(shortQty: real, o: OrderIntent): real
  {
    match o.side
    case Sell => shortQty + o.quantity
    case Buy => shortQty - o.quantity
  }

  /** Filling the order the rule produces brings the position's value to
      the target exactly. */
  lemma RebalanceReachesTarget(price: real, shortQty: real, target: real, minOrder: real)
    requires Rebalance(price, shortQty, target, minOrder).Order?
    ensures Notional(price, Fill(shortQty, Rebalance(price, shortQty, target, minOrder).intent)) == target
  {
  }

  /** Once the produced order is filled, the rule asks for nothing more at
      the same price: rebalancing settles after one order. */
  lemma RebalanceSettles(price: real, shortQty: real, target: real, minOrder: real)
    requires minOrder >= 0.0
    requires Rebalance(price, shortQty, target, minOrder).Order?
    ensures Rebalance(price, Fill(shortQty, Rebalance(price, shortQty, target, minOrder).intent), target, minOrder) == NoAction
  {
  }

  /** A short of 8 units at 100 is 200 below the 1000 target: sell 2 units. */
  lemma ShortBelowTargetSells()
    ensures Rebalance(100.0, 8.0, TargetShortUsd, MinOrderUsd) == Order(OrderIntent(Sell, 2.0, 200.0))
  {
  }

  /** A short of 10 units at 100 is on target: no order. */
  lemma ShortOnTargetHolds()
    ensures Rebalance(100.0, 10.0, TargetShortUsd, MinOrderUsd) == NoAction
  {
  }
}
