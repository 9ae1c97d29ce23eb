/**
  The bot's configuration record and the side of the order that closes a
  position (trading_bot.py, class TradingConfig).  Only the fields the bot
  reads are kept: the instrument, the trading direction, the pause between
  cycles and the exchange name.
 */
module Config {

  /** The side of a market order. */
  datatype Side = Buy | Sell {

    /** The lower-case word the exchange client is given. */
    function Name(): (s: string)
      ensures s == "buy" || s == "sell"
    {
      if Buy? then "buy" else "sell"
    }

    /** The side that undoes an order of this side. */
    function Opposite(): (o: Side)
      ensures o != this
    {
      if Buy? then Sell else Buy
    }
  }

  datatype TradingConfig = TradingConfig(
    ticker: string,
    direction: string,   // the side the bot opens with, as configured
    waitTime: int,       // seconds to sleep after every cycle
    exchange: string)

  /** The side that closes the bot's position: "buy" for a bot that sells,
      "sell" for every other direction string (compared exactly). */
  function CloseOrderSide(cfg: TradingConfig): (side: Side)
    ensures side == Buy <==> cfg.direction == "sell"
    ensures side.Name() == (if cfg.direction == "sell" then "buy" else "sell")
  {
    if cfg.direction == "sell" then Buy else Sell
  }

  /** For a bot whose direction names a side, the closing side is the
      opposite one. */
  lemma CloseOrderSideIsOpposite(cfg: TradingConfig, opening: Side)
    requires cfg.direction == opening.Name()
    ensures CloseOrderSide(cfg) == opening.Opposite()
    ensures CloseOrderSide(cfg).Name() != cfg.direction
  {
  }
}
