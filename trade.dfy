/**
 * Position arithmetic that both programs use: how far the price moved in
 * favour of a position, and what a position of a given notional amount
 * earns on that move. It is the reference against which the frontend's and
 * the backend's gain, loss and risk-reward formulas are proved.
 */
module Trade {

  /** The position a BUY signal (Long) or a SELL signal (Short) opens. */
  datatype Side = Long | Short

  /** Price move from `entry` to `exit`, positive when it favours `side`. */
  function Move(side: Side, entry: real, exit: real): real
  {
    match side
    case Long => exit - entry
    case Short => entry - exit
  }

  /**
   * Profit of a position of notional `amount` opened at `entry` and closed
   * at `exit`: amount / entry units, each earning the move.
   */
  function Pnl(side: Side, entry: real, exit: real, amount: real): real
    requires entry != 0.0
  {
    amount / entry * Move(side, entry, exit)
  }

  /**
   * The profit and the negated profit in the form `(a - b) * amount / entry`
   * the backend writes them.
   */
  lemma PnlBackendForm(entry: real, tp: real, sl: real, amount: real)
    requires entry != 0.0
    ensures Pnl(Long, entry, tp, amount) == (tp - entry) * amount / entry
    ensures -Pnl(Long, entry, sl, amount) == (entry - sl) * amount / entry
    ensures Pnl(Short, entry, tp, amount) == (entry - tp) * amount / entry
    ensures -Pnl(Short, entry, sl, amount) == (sl - entry) * amount / entry
  {
  }

  /** A short position earns exactly what a long one loses, and conversely. */
  lemma ShortMirrorsLong(entry: real, exit: real, amount: real)
    requires entry != 0.0
    ensures Move(Short, entry, exit) == -Move(Long, entry, exit)
    ensures Pnl(Short, entry, exit, amount) == -Pnl(Long, entry, exit, amount)
  {
  }
}
