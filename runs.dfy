/**
 * Whole runs of the strategy: the engine delivers a sequence of events, each one the
 * clock moving to a new bar, an order notification, or a call of `next`. On every bar
 * the engine advances the clock, then reports that bar's order notifications, then
 * calls `next`; the theorems here hold over every sequence of events, that order
 * included. They state what the per-call rules add up to: at most one order placed
 * between two releases of the pending slot, sells only after the three-bar hold, buys
 * only when flat, and refusals that give back the earlier state with only the clock
 * advanced by the bars in between.
 */
module Runs {
  import opened Wrappers
  import opened KeltnerStrategy

  datatype Event =
    | Clock
    | Notify(status: Status, isBuy: bool, price: real, comm: real)
    | Decide(inputs: BarInputs)

  /** What the strategy asks for on event `e` in state `s`. */
  function IntentAt(s: StrategyState, e: Event): Intent
    requires Consistent(s)
  {
    match e
    case Decide(b) => OnBar(s, b).intent
    case _ => Hold
  }

  /** The state after event `e`. */
  function Step(s: StrategyState, e: Event): (t: StrategyState)
    requires Consistent(s)
    ensures Consistent(t)
  {
    match e
    case Clock => Tick(s)
    case Notify(st, isBuy, price, comm) => OnOrder(s, st, isBuy, price, comm)
    case Decide(b) => OnBar(s, b).state
  }

  /** The state after the whole event sequence, processed first to last. */
  function Run(s: StrategyState, evs: seq<Event>): (t: StrategyState)
    requires Consistent(s)
    ensures Consistent(t)
    decreases |evs|
  {
    if evs == [] then s else Step(Run(s, evs[..|evs| - 1]), evs[|evs| - 1])
  }

  // ---------------------------------------------------------------------------
  // Reference definitions. All but the last read the event sequence alone.

  /** Number of clock advances (new bars) in the sequence. */
  function ClocksIn(evs: seq<Event>): nat
    decreases |evs|
  {
    if evs == [] then 0
    else ClocksIn(evs[..|evs| - 1]) + (if evs[|evs| - 1].Clock? then 1 else 0)
  }

  /** Bars since the last completed-order notification, if there was one. */
  function FillAge(evs: seq<Event>): Option<nat>
    decreases |evs|
  {
    if evs == [] then None
    else
      var e := evs[|evs| - 1];
      if e.Notify? && e.status == Completed then Some(0)
      else
        match FillAge(evs[..|evs| - 1])
        case None => None
        case Some(k) => Some(if e.Clock? then k + 1 else k)
  }

  /** Whether the last completed order was a buy, if there was one. */
  function LastFillSide(evs: seq<Event>): Option<bool>
    decreases |evs|
  {
    if evs == [] then None
    else
      var e := evs[|evs| - 1];
      if e.Notify? && e.status == Completed then Some(e.isBuy)
      else LastFillSide(evs[..|evs| - 1])
  }

  /** Executed price and commission of the last completed buy, if there was one. */
  function LastBuyFill(evs: seq<Event>): Option<(real, real)>
    decreases |evs|
  {
    if evs == [] then None
    else
      var e := evs[|evs| - 1];
      if e.Notify? && e.status == Completed && e.isBuy then Some((e.price, e.comm))
      else LastBuyFill(evs[..|evs| - 1])
  }

  /**
   * Orders the strategy has placed since the last notification that releases the
   * pending slot (any status but Submitted/Accepted), or since the start. Unlike the
   * functions above it reads the model's own decisions: what `next` asked for on each
   * call.
   */
  function OrdersSinceRelease(s: StrategyState, evs: seq<Event>): nat
    requires Consistent(s)
    decreases |evs|
  {
    if evs == [] then 0
    else
      var p := evs[..|evs| - 1];
      var e := evs[|evs| - 1];
      match e
      case Clock => OrdersSinceRelease(s, p)
      case Notify(st, _, _, _) => if IsAcknowledgement(st) then OrdersSinceRelease(s, p) else 0
      case Decide(_) => OrdersSinceRelease(s, p) + (if IntentAt(Run(s, p), e).Place? then 1 else 0)
  }

  // ---------------------------------------------------------------------------
  // What the state of a run is, in terms of the events.

  lemma {:induction false} RunBarCount(s: StrategyState, evs: seq<Event>)
    requires Consistent(s)
    ensures Run(s, evs).barCount == s.barCount + ClocksIn(evs)
    decreases |evs|
  {
    if evs != [] {
      RunBarCount(s, evs[..|evs| - 1]);
    }
  }

  lemma {:induction false} RunFillBar(s: StrategyState, evs: seq<Event>)
    requires Consistent(s)
    ensures FillAge(evs).None? ==> Run(s, evs).barExecuted == s.barExecuted
    ensures FillAge(evs).Some? ==> Run(s, evs).barExecuted == Some(Run(s, evs).barCount - FillAge(evs).value)
    decreases |evs|
  {
    if evs != [] {
      RunFillBar(s, evs[..|evs| - 1]);
    }
  }

  lemma {:induction false} RunPosition(s: StrategyState, evs: seq<Event>)
    requires Consistent(s)
    ensures Run(s, evs).inPosition == (match LastFillSide(evs) case None => s.inPosition case Some(b) => b)
    decreases |evs|
  {
    if evs != [] {
      RunPosition(s, evs[..|evs| - 1]);
    }
  }

  lemma {:induction false} RunBuyRecord(s: StrategyState, evs: seq<Event>)
    requires Consistent(s)
    ensures LastBuyFill(evs).None? ==> Run(s, evs).buyprice == s.buyprice && Run(s, evs).buycomm == s.buycomm
    ensures LastBuyFill(evs).Some? ==>
              Run(s, evs).buyprice == Some(LastBuyFill(evs).value.0)
              && Run(s, evs).buycomm == Some(LastBuyFill(evs).value.1)
    decreases |evs|
  {
    if evs != [] {
      RunBuyRecord(s, evs[..|evs| - 1]);
    }
  }

  /** The pending slot is full exactly when one order was placed since the last release. */
  lemma {:induction false} RunPendingSlot(s: StrategyState, evs: seq<Event>)
    requires Consistent(s)
    requires s.order.None?
    ensures OrdersSinceRelease(s, evs) == if Run(s, evs).order.Some? then 1 else 0
    decreases |evs|
  {
    if evs != [] {
      RunPendingSlot(s, evs[..|evs| - 1]);
    }
  }

  // ---------------------------------------------------------------------------
  // The strategy's promises over every run from the initial state.

  /**
   * At most one order is placed between two notifications that release the pending
   * slot. (A Partial notification releases it too, while the order is still working.)
   */
  lemma {:induction false} AtMostOneOutstanding(evs: seq<Event>)
    ensures OrdersSinceRelease(Init(), evs) <= 1
  {
    RunPendingSlot(Init(), evs);
  }

  /**
   * `next` asks for a buy exactly when no order was placed since the last release of
   * the slot, the last completed order (if any) was a sell, and the bar shows the
   * entry signal.
   */
  lemma {:induction false} BuyExactlyWhen(evs: seq<Event>, b: BarInputs)
    ensures IntentAt(Run(Init(), evs), Decide(b)) == Place(Buy) <==>
              OrdersSinceRelease(Init(), evs) == 0 && LastFillSide(evs) != Some(true) && BuySignal(b)
  {
    RunPendingSlot(Init(), evs);
    RunPosition(Init(), evs);
  }

  /**
   * `next` asks for a sell exactly when no order was placed since the last release of
   * the slot, the last completed order was a buy, and the clock has advanced at least
   * HOLD_BARS bars since the notification of that fill. In particular no sell comes
   * earlier than three bars after the bar the fill was reported on.
   */
  lemma {:induction false} SellExactlyWhen(evs: seq<Event>, b: BarInputs)
    ensures IntentAt(Run(Init(), evs), Decide(b)) == Place(Sell) <==>
              && OrdersSinceRelease(Init(), evs) == 0
              && LastFillSide(evs) == Some(true)
              && FillAge(evs).Some?
              && FillAge(evs).value >= HOLD_BARS
  {
    RunPendingSlot(Init(), evs);
    RunPosition(Init(), evs);
    RunFillBar(Init(), evs);
    LastFillSideHasAge(evs);
  }

  /** A run has a last completed order exactly when it has a fill age. */
  lemma {:induction false} LastFillSideHasAge(evs: seq<Event>)
    ensures LastFillSide(evs).Some? <==> FillAge(evs).Some?
    decreases |evs|
  {
    if evs != [] {
      LastFillSideHasAge(evs[..|evs| - 1]);
    }
  }

  // ---------------------------------------------------------------------------
  // Refusals leave no trace.

  /** Events that neither release the pending slot nor complete an order. */
  predicate Acknowledgements(evs: seq<Event>) {
    forall i :: 0 <= i < |evs| ==> !evs[i].Notify? || IsAcknowledgement(evs[i].status)
  }

  lemma {:induction false} RunAppend(s: StrategyState, a: seq<Event>, b: seq<Event>)
    requires Consistent(s)
    ensures Run(s, a + b) == Run(Run(s, a), b)
    decreases |b|
  {
    if b == [] {
      assert a + b == a;
    } else {
      assert (a + b)[..|a + b| - 1] == a + b[..|b| - 1];
      assert (a + b)[|a + b| - 1] == b[|b| - 1];
      RunAppend(s, a, b[..|b| - 1]);
    }
  }

  /**
   * While an order is pending, only the clock moves: `next` places nothing and
   * acknowledgements change nothing.
   */
  lemma {:induction false} PendingOnlyTicks(s: StrategyState, evs: seq<Event>)
    requires Consistent(s)
    requires s.order.Some?
    requires Acknowledgements(evs)
    ensures Run(s, evs) == s.(barCount := s.barCount + ClocksIn(evs))
    decreases |evs|
  {
    if evs != [] {
      var p := evs[..|evs| - 1];
      assert Acknowledgements(p) by {
        forall i | 0 <= i < |p| ensures !p[i].Notify? || IsAcknowledgement(p[i].status) {
          assert p[i] == evs[i];
        }
      }
      PendingOnlyTicks(s, p);
    }
  }

  /**
   * A call of `next` that places an order, any number of clock advances, calls of
   * `next` and acknowledgements, then a cancellation, margin call or rejection: the
   * state is the starting state with only the clock advanced. The next call of `next`
   * therefore decides as it would have with no order ever sent on that bar.
   */
  lemma {:induction false} RefusedOrderLeavesNoTrace(
    s: StrategyState, b: BarInputs, mid: seq<Event>, st: Status, isBuy: bool, price: real, comm: real)
    requires Consistent(s)
    requires IntentAt(s, Decide(b)).Place?
    requires Acknowledgements(mid)
    requires IsRefusal(st)
    ensures Run(s, [Decide(b)] + mid + [Notify(st, isBuy, price, comm)])
            == s.(barCount := s.barCount + ClocksIn(mid))
  {
    var evs := [Decide(b)] + mid + [Notify(st, isBuy, price, comm)];
    assert evs[..|evs| - 1] == [Decide(b)] + mid;
    assert [Decide(b)][..0] == [];
    RunAppend(s, [Decide(b)], mid);
    PendingOnlyTicks(Run(s, [Decide(b)]), mid);
  }

  /**
   * The engine's order within a bar: a fill reported on the bar after the one that
   * placed the order is stamped with the bar it is reported on.
   */
  lemma {:induction false} FillStampedWithReportingBar(
    s: StrategyState, b: BarInputs, price: real, comm: real)
    requires Consistent(s)
    requires IntentAt(s, Decide(b)) == Place(Buy)
    ensures var t := Run(s, [Decide(b), Clock, Notify(Completed, true, price, comm)]);
            t.barExecuted == Some(s.barCount + 1) && t.inPosition && t.order.None?
            && t.buyprice == Some(price) && t.buycomm == Some(comm)
  {
    var evs := [Decide(b), Clock, Notify(Completed, true, price, comm)];
    assert evs[..2] == [Decide(b), Clock];
    assert evs[..2][..1] == [Decide(b)];
    assert evs[..2][..1][..0] == [];
    var placed := OnBar(s, b).state;
    assert Run(s, [Decide(b)]) == placed;
    assert Run(s, [Decide(b), Clock]) == Tick(placed);
  }
}
