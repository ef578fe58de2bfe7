# Bollinger/Keltner squeeze-breakout strategy: a verified model of its decision state machine

The repository backtests one trading strategy, `TestStrategy` in `keltner_channel.py`,
on the backtrader engine. On every bar the engine calls the strategy's `next`. On every
change of an order's status it calls `notify_order`. Between them the strategy keeps a
small state machine:

- **Pending-order slot** (`self.order`). While an order is outstanding, `next` does nothing.
  Every order status other than Submitted/Accepted empties the slot.
- **Entry rule.** When flat, buy if the squeeze line (upper Bollinger band minus upper
  Keltner band) was negative on the previous bar and is positive now, and the close is
  above the 5-bar SMA.
- **Timed exit.** When in position, sell once `len(self) >= bar_executed + 3`, where
  `bar_executed` is the bar of the last completed fill.
- **Fill bookkeeping.** A completed order records its bar. A completed buy also records
  its price and commission.

The project has three files:

- `wrappers.dfy`: `Option`, which stands for attributes that are either `None` or a value.
- `keltner_channel.dfy` (module `KeltnerStrategy`), in two layers:
  - The data model and the pure specification of one call. `OnBar` specifies `next`.
    `OnOrder` specifies `notify_order`.
  - The class `Strategy`. It has the fields `order`, `inPosition`, `barExecuted`,
    `barCount`, `buyprice` and `buycomm`. Its methods `Next` and `NotifyOrder` update
    those fields in place, mirroring the source's branches, and are proved to follow
    `OnBar`/`OnOrder`. It ends with a client run in the engine's order, in two parts:
    `BreakoutEntry` buys on a breakout and has the fill reported on the next bar, and
    `TimedExit` sells three bars after that.
- `runs.dfy` (module `Runs`): whole runs, meaning any sequence of events. An event is
  the clock moving to a new bar, an order notification, or a call of `next`. The engine
  puts them in this order on every bar: clock, that bar's notifications, `next`. A run
  may also interleave them in any other order. `Run` gives the state after the sequence.
  Four reference functions read the event sequence alone: bars elapsed, bars since the
  last fill, side of the last fill, and last buy price. A fifth,
  `OrdersSinceRelease`, counts the orders `next` placed since the slot was last
  released, so it reads the model's own decisions. The theorems state what the
  per-call rules add up to over every run.

Modelling decisions:

- The indicators are inputs of type `real`. `next` receives the previous and current
  squeeze values, the close and the short SMA. `Squeeze(bbTop, kcTop)` is the
  definition of the squeeze line, and its contract states the meaning of its sign.
- The previous squeeze value is an `Option<real>`. The engine first calls `next` on the
  first bar where the current squeeze value is defined. On that call `squeeze[-1]`
  (line 128) is still undefined, a NaN for which `< 0` is false. The model passes
  `None` there, and `None` never satisfies the entry rule.
- `self.position` belongs to the broker. It is modelled as `inPosition`, set to the
  side of each completed order (a completed buy puts the strategy in position, a
  completed sell makes it flat). This matches the broker because the stake is fixed and
  the strategy places at most one order between two releases of the slot. A `Partial`
  notification breaks this: it releases the slot while the order is still working (see
  "## Left out").
- `len(self)` is modelled as `barCount`. The engine advances it at the start of each
  bar, before that bar's order notifications and before `next`: `AdvanceBar` in the
  class, `Tick` in the functions, the `Clock` event in a run. So a fill reported on a
  bar is stamped with that bar (line 94).
- `bar_executed` is never assigned in `__init__`. It only comes into being with the first
  completed order. It is therefore modelled as `Option<int>`, and the invariant
  `Consistent` says that being in position implies it is present, so `next` never reads
  it while it is absent.
- Order statuses are backtrader's nine. The source names Submitted, Accepted, Completed,
  Canceled, Margin and Rejected. Created, Partial and Expired fall through to the final
  `self.order = None` and so also empty the slot. The model does the same.

Behaviour of the code worth knowing:

- Every `Completed` order sets `bar_executed`, the sell included, not only the buy.
- A second order while one is pending is not an error: `next` simply returns.
- The strategy keeps no trade or P&L record.
- The engine delays the first call of `next` until the current indicator values are
  defined. On that first call the previous squeeze value is still undefined, so no
  buy can happen there.

## Model

| member | source | states |
|---|---|---|
| KeltnerStrategy.Squeeze | keltner_channel.py:49-67 | the squeeze line is negative exactly when the upper Bollinger band is below the upper Keltner band (squeeze), positive exactly when above (fire), zero exactly when they meet |
| KeltnerStrategy.BuySignalIsSqueezeThenFire | keltner_channel.py:122-130 | the entry test on squeeze values is the same as: previous bar in squeeze, current bar fired, close above the short SMA |
| KeltnerStrategy.Init | keltner_channel.py:32-35 | the initial state has no pending order, no position, no recorded fill, no buy price or commission, and has seen no bar; it satisfies the invariant |
| KeltnerStrategy.Tick | keltner_channel.py:142 | moving to a new bar adds one to the bar count behind `len(self)`, changes nothing else, and keeps the invariant |
| KeltnerStrategy.OnBar | keltner_channel.py:113-147 | with an order pending: no intent and no change; a buy exactly when no order is pending, flat, squeeze[-1] is defined and < 0, squeeze[0] > 0 and close > SMA; a sell exactly when no order is pending, in position and barCount >= barExecuted + 3; an order is stored in the slot only when it was empty, and nothing else changes; the invariant is kept |
| KeltnerStrategy.OnOrder | keltner_channel.py:69-100 | Submitted/Accepted change nothing; every other status empties the slot; Completed records the current bar and sets the position to the order's side, and a completed buy also records its price and commission; any status other than Completed leaves bar, position, price and commission unchanged; the bar count never changes; the invariant is kept |
| KeltnerStrategy.RefusalRestoresState | keltner_channel.py:97-100 | a bar that places an order followed by Canceled/Margin/Rejected gives back exactly the state before that call, so the next call of `next` decides as it would have from that state |
| KeltnerStrategy.Strategy.constructor | keltner_channel.py:32-35 | the fields start in the initial state |
| KeltnerStrategy.Strategy.AdvanceBar | keltner_channel.py:142 | the engine's bar counter behind `len(self)` grows by one and nothing else changes; it is called before the bar's notifications and `next` |
| KeltnerStrategy.Strategy.Next | keltner_channel.py:109-147 | the returned intent and the new fields are exactly what OnBar gives for the old fields, and only the pending slot may change |
| KeltnerStrategy.Strategy.NotifyOrder | keltner_channel.py:69-100 | the new fields are exactly what OnOrder gives for the old fields and the notification |
| KeltnerStrategy.BreakoutEntry | keltner_channel.py:69-147 | a run in the engine's order: no buy on the first call (previous squeeze undefined), a buy on the bar where the squeeze fires with the close above the SMA, and a fill reported on the next bar stamped with that next bar |
| KeltnerStrategy.TimedExit | keltner_channel.py:137-147 | continuing that run: no sell on the three bars before the hold ends; a sell on the third bar after the stamped fill; a Margin refusal of it keeps the position and the fill bar, and the next call of `next` sells again, leaving a pending sell |
| Runs.Step | keltner_channel.py:69-147 | one clock advance, notification or call of `next` keeps the invariant |
| Runs.Run | keltner_channel.py:69-147 | any sequence of clock advances, notifications and calls of `next` keeps the invariant: in position implies a recorded fill bar and buy price, the fill bar is never later than the current bar, and price and commission are recorded together |
| Runs.RunBarCount | keltner_channel.py:142 | after a run, the bar count is the starting count plus the number of clock advances in the run |
| Runs.RunFillBar | keltner_channel.py:92-94 | after a run, the recorded fill bar is the current bar minus the bars since the notification of the last completed order; with no completed order in the run it is unchanged |
| Runs.RunPosition | keltner_channel.py:76-94 | after a run, the strategy is in position exactly when the last completed order was a buy (the starting position if none completed) |
| Runs.RunBuyRecord | keltner_channel.py:84-85 | after a run, buyprice and buycomm are the executed price and commission of the last completed buy (unchanged if none) |
| Runs.RunPendingSlot | keltner_channel.py:113-115 | starting with an empty slot, the number of orders placed since the last slot-releasing notification is 1 when the slot is full and 0 when it is empty |
| Runs.AtMostOneOutstanding | keltner_channel.py:134-135 | in every run from the initial state, at most one order is placed between two slot-releasing notifications (a Partial notification counts as one) |
| Runs.BuyExactlyWhen | keltner_channel.py:117-135 | in every run from the initial state, `next` asks for a buy exactly when no order was placed since the last release of the slot, the last completed order (if any) was a sell, and the bar shows the entry signal |
| Runs.SellExactlyWhen | keltner_channel.py:137-147 | in every run from the initial state, `next` asks for a sell exactly when no order was placed since the last release of the slot, the last completed order was a buy, and the clock has advanced at least three bars since that fill was reported; so no sell comes earlier |
| Runs.PendingOnlyTicks | keltner_channel.py:113-115 | while an order is pending, clock advances, calls of `next` and Submitted/Accepted notifications change nothing but the bar count |
| Runs.RefusedOrderLeavesNoTrace | keltner_channel.py:70-100 | a call of `next` that places an order, then any clock advances, calls of `next` and acknowledgements, then a cancellation, margin call or rejection: the state is the starting state with only the clock advanced |
| Runs.FillStampedWithReportingBar | keltner_channel.py:84-94 | a buy placed on one bar and reported Completed after the clock moves on is stamped with the later bar; the position is then held, the slot is empty, and the executed price and commission are recorded |

## Left out

- The `__main__` block (keltner_channel.py:150-193) is run set-up. It covers the engine, the CSV feed, cash, the sizer, commission and printed portfolio values.
- `log` and every `print` (keltner_channel.py:23-26, 111, 119) are output only and do not affect control flow.
- `notify_trade` (keltner_channel.py:102-107) only prints the P&L that the engine's trade object computes. The strategy keeps no P&L state, so gross/net P&L is not modelled.
- The indicators (keltner_channel.py:38-47) are left out: the SMAs, Bollinger Bands and the Keltner Channel (which is not defined in this file). They are library code over floating-point series, so their values are inputs of type `real`. Only the `squeeze = bb.top - kc.top` definition is modelled.
- The unused long SMA (keltner_channel.py:41-42) is not modelled.
- The indicator warm-up is not modelled beyond the first call of `next`. The engine's minimum-period mechanism ensures `next` is only called once every current indicator value is defined; the previous squeeze value on the first call is the one exception, modelled as `None`.
- Floating-point behaviour is not modelled beyond the undefined first `squeeze[-1]`: the reals have no rounding and no NaN, so a NaN in the current squeeze value, the close or the SMA, which would fail every comparison in the source, is not covered.
- Broker behaviour is abstracted: fills, cash, margin and sizing. The model assumes `self.buy()` and `self.sell()` always return an order, which holds with the fixed stake of 10. `inPosition` follows completed orders only.
- Partial fills are not modelled in the position. A `Partial` notification empties the pending slot, as the code is written, but leaves `inPosition` unchanged, although the broker would already hold part of the stake.
- The broker's own timing of notifications is not modelled. A run may order clock advances, notifications and calls of `next` in any way, including notifications that no pending order explains. The theorems cover the engine's order because they hold for every order.
