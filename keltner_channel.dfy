/**
 * The per-bar decision state machine of the Bollinger/Keltner "squeeze breakout"
 * strategy: a single pending-order slot, an entry rule on the squeeze series and the
 * short moving average, and an exit once the position has been held for three bars.
 *
 * The pure functions OnBar and OnOrder are the specification of one bar's decision
 * and of one order notification; the class Strategy holds the same state in fields
 * and its methods are proved to follow those functions.
 */
module KeltnerStrategy {
  import opened Wrappers

  /** The side of an order sent to the broker. */
  datatype Side = Buy | Sell

  /** What one call of `next` asks the broker to do. */
  datatype Intent = Hold | Place(side: Side)

  /** The order statuses the trading engine reports to `notify_order`. */
  datatype Status =
    | Created | Submitted | Accepted | Partial | Completed
    | Canceled | Expired | Margin | Rejected

  /**
   * The indicator values `next` reads on one bar. The engine first calls `next` once the
   * current squeeze value is defined, so on that first call the previous one is still
   * undefined (a NaN, for which `< 0` is false): `squeezePrev` is `None` there.
   */
  datatype BarInputs = BarInputs(squeezePrev: Option<real>, squeezeCur: real, close: real, sma: real)

  /** All the state the strategy's decisions depend on. */
  datatype StrategyState = StrategyState(
    order: Option<Side>,        // the pending order, if any
    inPosition: bool,           // the broker holds the stake
    barExecuted: Option<int>,   // bar of the last completed fill; absent before the first
    barCount: int,              // number of bars processed so far
    buyprice: Option<real>,     // executed price of the last completed buy
    buycomm: Option<real>       // commission of the last completed buy
  )

  /** Bars a position is held before a sell may be sent. */
  const HOLD_BARS := 3

  /**
   * The squeeze line: upper Bollinger band minus upper Keltner band. It is negative
   * exactly while the upper Bollinger band lies below the upper Keltner band ("squeeze")
   * and positive exactly when it lies above it ("fire").
   */
  function Squeeze(bbTop: real, kcTop: real): (r: real)
    ensures r < 0.0 <==> bbTop < kcTop
    ensures r > 0.0 <==> bbTop > kcTop
    ensures r == 0.0 <==> bbTop == kcTop
  {
    bbTop - kcTop
  }

  /** The three-step entry rule: squeeze on the previous bar, fire now, close above the SMA. */
  predicate BuySignal(b: BarInputs) {
    b.squeezePrev.Some? && b.squeezePrev.value < 0.0 && b.squeezeCur > 0.0 && b.close > b.sma
  }

  /** Reading the entry rule back in terms of the bands the squeeze line is built from. */
  lemma BuySignalIsSqueezeThenFire(bbPrev: real, kcPrev: real, bbCur: real, kcCur: real, close: real, sma: real)
    ensures BuySignal(BarInputs(Some(Squeeze(bbPrev, kcPrev)), Squeeze(bbCur, kcCur), close, sma))
            <==> bbPrev < kcPrev && bbCur > kcCur && close > sma
  {
  }

  /** Statuses on which `notify_order` returns at once. */
  predicate IsAcknowledgement(st: Status) {
    st == Submitted || st == Accepted
  }

  /** Statuses reported as cancelled, refused for margin, or rejected. */
  predicate IsRefusal(st: Status) {
    st == Canceled || st == Margin || st == Rejected
  }

  /**
   * What holds in every reachable state: a position is only entered through a completed
   * fill, which records its bar (no later than the current bar) and, for the buy,
   * price and commission together.
   */
  predicate Consistent(s: StrategyState) {
    && (s.inPosition ==> s.barExecuted.Some? && s.buyprice.Some?)
    && (s.barExecuted.Some? ==> s.barExecuted.value <= s.barCount)
    && (s.buyprice.Some? <==> s.buycomm.Some?)
  }

  /** The state right after construction: no order, flat, nothing recorded, no bar seen. */
  function Init(): (s: StrategyState)
    ensures Consistent(s)
    ensures s.order.None? && !s.inPosition && s.barExecuted.None? && s.barCount == 0
    ensures s.buyprice.None? && s.buycomm.None?
  {
    StrategyState(None, false, None, 0, None, None)
  }

  /** The engine moving on to the next bar (`len(self)` grows by one). */
  function Tick(s: StrategyState): (t: StrategyState)
    ensures t.barCount == s.barCount + 1
    ensures t == s.(barCount := t.barCount)
    ensures Consistent(s) ==> Consistent(t)
  {
    s.(barCount := s.barCount + 1)
  }

  datatype BarResult = BarResult(intent: Intent, state: StrategyState)

  /**
   * One call of `next`: nothing while an order is pending; when flat, a buy on the
   * entry rule; when in position, a sell once HOLD_BARS bars have passed since the fill.
   * A placed order is remembered in the pending slot and nothing else changes.
   */
  function OnBar(s: StrategyState, b: BarInputs): (r: BarResult)
    requires Consistent(s)
    ensures s.order.Some? ==> r.intent == Hold && r.state == s
    ensures r.intent == Place(Buy) <==> s.order.None? && !s.inPosition && BuySignal(b)
    ensures r.intent == Place(Sell) <==>
              s.order.None? && s.inPosition && s.barCount >= s.barExecuted.value + HOLD_BARS
    ensures r.intent.Place? ==> s.order.None? && r.state == s.(order := Some(r.intent.side))
    ensures r.intent == Hold ==> r.state == s
    ensures Consistent(r.state)
  {
    if s.order.Some? then
      BarResult(Hold, s)
    else if !s.inPosition then
      if b.squeezePrev.Some? && b.squeezePrev.value < 0.0 && b.squeezeCur > 0.0 && b.close > b.sma then
        BarResult(Place(Buy), s.(order := Some(Buy)))
      else
        BarResult(Hold, s)
    else if s.barCount >= s.barExecuted.value + HOLD_BARS then
      BarResult(Place(Sell), s.(order := Some(Sell)))
    else
      BarResult(Hold, s)
  }

  /**
   * One call of `notify_order`. Submitted/Accepted change nothing. Every other status
   * empties the pending slot. A completed order records the current bar and moves the
   * position to its side; a completed buy also records its price and commission.
   * Nothing else changes, so a refusal leaves position and records as they were.
   */
  function OnOrder(s: StrategyState, st: Status, isBuy: bool, price: real, comm: real): (t: StrategyState)
    requires Consistent(s)
    ensures IsAcknowledgement(st) ==> t == s
    ensures !IsAcknowledgement(st) ==> t.order.None?
    ensures st == Completed ==>
              && t.barExecuted == Some(s.barCount)
              && t.inPosition == isBuy
              && (isBuy ==> t.buyprice == Some(price) && t.buycomm == Some(comm))
              && (!isBuy ==> t.buyprice == s.buyprice && t.buycomm == s.buycomm)
    ensures st != Completed ==>
              t.inPosition == s.inPosition && t.barExecuted == s.barExecuted
              && t.buyprice == s.buyprice && t.buycomm == s.buycomm
    ensures t.barCount == s.barCount
    ensures Consistent(t)
  {
    if IsAcknowledgement(st) then
      s
    else if st == Completed then
      var recorded := if isBuy then s.(buyprice := Some(price), buycomm := Some(comm)) else s;
      recorded.(order := None, inPosition := isBuy, barExecuted := Some(s.barCount))
    else
      s.(order := None)
  }

  /**
   * A refused order undoes itself: after a call of `next` that places an order and a
   * refusal of it, the state is the one before that call, so the next call decides
   * exactly as it would have from there.
   */
  lemma RefusalRestoresState(s: StrategyState, b: BarInputs, st: Status, isBuy: bool, price: real, comm: real)
    requires Consistent(s)
    requires OnBar(s, b).intent.Place?
    requires IsRefusal(st)
    ensures OnOrder(OnBar(s, b).state, st, isBuy, price, comm) == s
    ensures forall c: BarInputs :: OnBar(OnOrder(OnBar(s, b).state, st, isBuy, price, comm), c) == OnBar(s, c)
  {
  }

  /** The strategy object: the fields `__init__`, `next` and `notify_order` keep. */
  class Strategy {
    var order: Option<Side>
    var inPosition: bool
    var barExecuted: Option<int>
    var barCount: int
    var buyprice: Option<real>
    var buycomm: Option<real>

    /** The fields read as one value. */
    function State(): StrategyState
      reads this
    {
      StrategyState(order, inPosition, barExecuted, barCount, buyprice, buycomm)
    }

    predicate Valid()
      reads this
    {
      Consistent(State())
    }

    constructor ()
      ensures Valid()
      ensures State() == Init()
    {
      order := None;
      inPosition := false;
      barExecuted := None;
      barCount := 0;
      buyprice := None;
      buycomm := None;
    }

    /**
     * The engine's clock: called once per bar, before the order notifications of that
     * bar and before Next.
     */
    method AdvanceBar()
      requires Valid()
      modifies this`barCount
      ensures Valid()
      ensures State() == Tick(old(State()))
    {
      barCount := barCount + 1;
    }

    /** `next`: decides this bar's intent and remembers a placed order. */
    method Next(squeezePrev: Option<real>, squeezeCur: real, close: real, sma: real) returns (intent: Intent)
      requires Valid()
      modifies this`order
      ensures Valid()
      ensures intent == OnBar(old(State()), BarInputs(squeezePrev, squeezeCur, close, sma)).intent
      ensures State() == OnBar(old(State()), BarInputs(squeezePrev, squeezeCur, close, sma)).state
    {
      intent := Hold;
      if order.Some? {
        return;
      }
      if !inPosition {
        if squeezePrev.Some? && squeezePrev.value < 0.0 {
          if squeezeCur > 0.0 {
            if close > sma {
              intent := Place(Buy);
              order := Some(Buy);
            }
          }
        }
      } else {
        if barCount >= barExecuted.value + HOLD_BARS {
          intent := Place(Sell);
          order := Some(Sell);
        }
      }
    }

    /** `notify_order`: records fills and empties the pending slot on every status but Submitted/Accepted. */
    method NotifyOrder(status: Status, isBuy: bool, price: real, comm: real)
      requires Valid()
      modifies this
      ensures Valid()
      ensures State() == OnOrder(old(State()), status, isBuy, price, comm)
    {
      if status == Submitted || status == Accepted {
        return;
      }
      if status == Completed {
        if isBuy {
          buyprice := Some(price);
          buycomm := Some(comm);
        }
        inPosition := isBuy;
        barExecuted := Some(barCount);
      } else if status == Canceled || status == Margin || status == Rejected {
        // refused by the broker: only the pending slot is released below
      }
      order := None;
    }
  }

  /**
   * A client run in the engine's order (clock, notifications, `next`). The first call
   * has no previous squeeze value and so cannot buy. A squeeze on bar 2 that fires on
   * bar 3 with the close above the SMA buys on bar 3; the fill, reported on bar 4, is
   * stamped with bar 4.
   */
  method BreakoutEntry() returns (st: Strategy)
    ensures fresh(st) && st.Valid()
    ensures st.State() == StrategyState(None, true, Some(4), 4, Some(12.0), Some(0.0))
  {
    st := new Strategy();
    st.AdvanceBar();
    var i := st.Next(None, 0.5, 12.0, 11.0);
    assert i == Hold;
    st.AdvanceBar();
    i := st.Next(Some(0.5), -0.5, 10.0, 11.0);
    assert i == Hold;
    st.AdvanceBar();
    i := st.Next(Some(-0.5), 1.0, 12.0, 11.0);
    assert i == Place(Buy);
    st.AdvanceBar();
    st.NotifyOrder(Submitted, true, 0.0, 0.0);
    st.NotifyOrder(Accepted, true, 0.0, 0.0);
    st.NotifyOrder(Completed, true, 12.0, 0.0);
  }

  /**
   * Continuing that run: the sell comes first on bar 7, three bars after the fill was
   * stamped; a margin refusal of it on bar 8 keeps the position, and `next` sells again.
   */
  method TimedExit() returns (st: Strategy)
    ensures fresh(st) && st.Valid()
    ensures st.State() == StrategyState(Some(Sell), true, Some(4), 8, Some(12.0), Some(0.0))
  {
    st := BreakoutEntry();
    var i := st.Next(Some(1.0), 1.0, 13.0, 11.0);
    assert i == Hold;
    st.AdvanceBar();
    i := st.Next(Some(1.0), 1.0, 13.0, 11.0);
    assert i == Hold;
    st.AdvanceBar();
    i := st.Next(Some(1.0), 1.0, 13.0, 11.0);
    assert i == Hold;
    st.AdvanceBar();
    i := st.Next(Some(1.0), 1.0, 13.0, 11.0);
    assert i == Place(Sell);
    st.AdvanceBar();
    st.NotifyOrder(Margin, false, 0.0, 0.0);
    assert st.order.None? && st.inPosition && st.barExecuted == Some(4);
    i := st.Next(Some(1.0), 1.0, 13.0, 11.0);
    assert i == Place(Sell);
  }
}
