# Signal strategies of wolfquant, modelled in Dafny

This project models the two example strategies of the wolfquant
event-driven backtester: `MovingAverageCrossStrategy` and
`BuyAndHoldStrategy`. Each strategy keeps per-symbol state in
`self.bought`. On every MARKET event taken off the event queue, it walks
its `symbol_list`, reads what the data handler holds for each symbol, and
may put a `SignalEvent` on the queue.

Each strategy object is modelled as an immutable record. `calculate_signals`
is modelled as a pure function that takes:

- the record;
- the event type;
- the data handler's answers during that call (the *feed*).

It returns the updated record and the signals queued, in order. Each signal
is tagged with the `symbol_list` entry whose iteration queued it (an
`Emission`), so that properties can be stated per symbol. A run is a
sequence of such calls.

Modules:

- `Events`: the event kinds, `SignalEvent`, the queue as a list of
  emissions, and the per-symbol projection `EmissionsFor`.
- `Numeric`: Python's `xs[-k:]` slice, and `np.mean` as an exact mean or
  NaN. Means are compared by cross-multiplication.
- `Crossover`: `MovingAverageCrossStrategy`, with a per-symbol step, the
  walk over `symbol_list`, the loop as written, whole runs, and the
  alternation theorem.
- `BuyAndHold`: `BuyAndHoldStrategy`, with a per-symbol step, the walk, the
  loop as written, whole runs, and the fire-once and latch theorems.
- `Scenarios`: the worked crossover example (windows 2 and 3, closes 10,
  10, 10, 12, 14, 9, 7) and a three-bar buy-and-hold run, both on a single
  symbol.

Both walks are also written as the source's `for` loop over a mutable map
and an appended queue (`CalculateSignalsLoop`), and proved equal to the
functional walk.

The docstring of `calculate_signals` (tests/test_strategy.py:50-52)
mentions a short entry, but the code only ever queues LONG and EXIT
(tests/test_strategy.py:72, 79); the model follows the code, and
`Crossover.EntryAndExitConditions` states that SHORT never occurs.

The crossover strategy has no window-fullness guard: it compares the
averages as soon as the handler's reply is non-empty
(tests/test_strategy.py:62).

- While the short window covers the whole reply, the two averages coincide,
  so nothing fires (`Crossover.QuietWhileShortWindowCoversData`).
- Once the reply is longer than the short window but shorter than the long
  one, a signal can fire (`Scenarios.FiresBeforeLongWindowIsFull`).

In the run with short window 2, long window 3 and closes 10, 10, 10, 12,
14, 9, 7, the short window covers the reply until the reply holds three
closes, so nothing fires before then.

## Model

| member | source | states |
|---|---|---|
| Crossover.InitialBought | tests/test_strategy.py:38-46 | every listed symbol starts 'OUT', and no other symbol has an entry |
| Crossover.New | tests/test_strategy.py:19-36 | the constructor keeps the symbol list and both windows (100 and 400 by default), every listed symbol can be looked up, and each is 'OUT' |
| Crossover.Sma | tests/test_strategy.py:63-64 | `np.mean(bars[-k:])`: a number exactly when Python's slice is non-empty, and then the mean of the reply's last closes; for a positive window `k` it is NaN only on an empty reply and otherwise averages the last `min(k, n)` closes |
| Crossover.SymbolStep | tests/test_strategy.py:59-83 | one iteration either keeps the symbol's state and queues nothing, or flips the state and queues a signal of strategy 1 with strength 1.0 for that symbol at its latest datetime, whose direction leaves the old state (LONG from 'OUT', EXIT from 'LONG') |
| Crossover.EntryAndExitConditions | tests/test_strategy.py:62-83 | a LONG is queued if and only if the reply is non-empty, both averages are numbers, the short one's value is above the long one's and the state is 'OUT'; an EXIT if and only if the reply is non-empty, both averages are numbers, the short one's value is below the long one's and the state is 'LONG'; SHORT never |
| Crossover.QuietWithoutCrossing | tests/test_strategy.py:62-83 | with no reply, an empty reply, a NaN average, or two averages of equal value, nothing is queued and the state is kept |
| Crossover.QuietWhileShortWindowCoversData | tests/test_strategy.py:59-64 | when the reply has at most `long_window` closes and `short_window` is at least its length, both averages are the mean of the whole reply and nothing fires |
| Crossover.FlatClosesAreQuiet | tests/test_strategy.py:62-83 | in exact arithmetic, a reply whose closes are all equal never queues a signal and keeps the state, whatever the windows |
| Crossover.SymbolStepSettles | tests/test_strategy.py:71-83 | a second iteration on the same data after the first changes nothing and queues nothing, so a symbol listed twice still gets at most one signal per event |
| Crossover.Walk | tests/test_strategy.py:58-83 | the loop over `symbol_list` keeps exactly the keys of `bought` and queues at most one signal per listed entry |
| Crossover.WalkEmissions | tests/test_strategy.py:58-83 | the walk queues signals in `symbol_list` order; each is for its loop symbol, stamped with that symbol's latest datetime, of strategy 1, strength 1.0, and never SHORT |
| Crossover.WalkIsLocal | tests/test_strategy.py:58-83 | the walk's effect on a symbol is exactly one step on that symbol's own state and data, whatever other symbols hold and however often it is listed; an unlisted symbol is untouched and gets nothing |
| Crossover.WalkWithoutDuplicates | tests/test_strategy.py:58-83 | when no symbol is listed twice, the queue is exactly, in `symbol_list` order, the signal each symbol's step gives from the state it had before the call |
| Crossover.CalculateSignals | tests/test_strategy.py:48-83 | a non-MARKET event changes nothing and queues nothing; otherwise the symbol list and windows are kept, every listed symbol stays keyed, and every queued signal comes from a listed symbol and is built as above |
| Crossover.CalculateSignalsLoop | tests/test_strategy.py:57-83 | the loop over a mutable `bought` and an appended queue computes the same state and the same queue as the functional walk |
| Crossover.Run | tests/test_strategy.py:48-83 | repeated calls keep the symbol list, both windows and the keys of `bought`, so every listed symbol can always be looked up |
| Crossover.RunIsLocal | tests/test_strategy.py:57-83 | over any sequence of events, a listed symbol's final state and its signals are those of its own machine fed only its own replies |
| Crossover.SymbolRunAlternates | tests/test_strategy.py:71-83 | a symbol's own machine queues signals that alternate from its starting state (LONG, EXIT, LONG, … from 'OUT'), and it ends back in its starting state if and only if it queued an even number of signals |
| Crossover.SignalsAlternate | tests/test_strategy.py:36-83 | from construction, over any events, each symbol's signals are LONG at even positions and EXIT at odd ones, so no two neighbours share a direction, and the symbol is 'LONG' at the end if and only if it got an odd number of signals |
| Crossover.UnlistedSymbolsAreSilent | tests/test_strategy.py:58 | a symbol outside `symbol_list` never gets a signal |
| Crossover.RunOrigins | tests/test_strategy.py:58 | every signal of a run comes from an iteration for a listed symbol |
| Crossover.SingleSymbolRun | tests/test_strategy.py:58-83 | with one listed symbol, the queue is exactly what that symbol's own machine queues |
| Numeric.PySuffix | tests/test_strategy.py:63-64 | Python's `xs[-k:]`: a suffix of the list, of length `min(k, n)` for positive `k`, the whole list for `k == 0`, and the list without its first `min(-k, n)` values for negative `k` |
| Numeric.MeanOf | tests/test_strategy.py:63-64 | `np.mean` is NaN exactly on an empty slice; otherwise it is the slice's sum over its length |
| Numeric.Greater | tests/test_strategy.py:71 | the float `>` on two averages: true exactly when both are numbers and the first value is above the second, so a NaN compares false |
| Numeric.Less | tests/test_strategy.py:78 | the float `<` on two averages: true exactly when both are numbers and the first value is below the second, so a NaN compares false |
| Numeric.EqualMeansDoNotCompare | tests/test_strategy.py:71-78 | two means with equal values are neither greater nor less than each other |
| BuyAndHold.InitialBought | tests/test_strategy.py:93-97 | every listed symbol starts `False`, and no other symbol has an entry |
| BuyAndHold.New | tests/test_strategy.py:86-91 | the constructor keeps the symbol list, every listed symbol can be looked up, and each is `False` |
| BuyAndHold.SymbolStep | tests/test_strategy.py:104-109 | a raised flag stays raised and queues nothing; any queued signal is a LONG and raises the flag |
| BuyAndHold.FirstBarFires | tests/test_strategy.py:104-109 | a signal is queued if and only if the flag is down and there is a bar; it is a LONG of strategy 1 with strength 1.0 carrying the first bar's symbol and datetime; the flag is up afterwards if and only if it was up or there was a bar |
| BuyAndHold.Walk | tests/test_strategy.py:103-109 | the loop over `symbol_list` keeps exactly the keys of `bought` and queues at most one signal per listed entry |
| BuyAndHold.WalkEmissions | tests/test_strategy.py:103-109 | the walk queues signals in `symbol_list` order, and each is a LONG of strategy 1 with strength 1.0 |
| BuyAndHold.WalkIsLocal | tests/test_strategy.py:103-109 | the walk's effect on a symbol is exactly one step on that symbol's own flag and bars; an unlisted symbol is untouched and gets nothing |
| BuyAndHold.WalkWithoutDuplicates | tests/test_strategy.py:103-109 | when no symbol is listed twice, the queue is exactly, in `symbol_list` order, the signal each symbol's step gives from the flag it had before the call |
| BuyAndHold.CalculateSignals | tests/test_strategy.py:99-109 | a non-MARKET event changes nothing and queues nothing; otherwise the symbol list is kept, every listed symbol stays keyed, and every queued signal comes from a listed symbol and is a LONG of strategy 1 with strength 1.0 |
| BuyAndHold.CalculateSignalsLoop | tests/test_strategy.py:102-109 | the loop over a mutable `bought` and an appended queue computes the same state and the same queue as the functional walk |
| BuyAndHold.Run | tests/test_strategy.py:99-109 | over any sequence of events, every queued signal is a LONG of strategy 1 with strength 1.0, and every listed symbol stays keyed |
| BuyAndHold.RunIsLocal | tests/test_strategy.py:99-109 | over any sequence of events, a listed symbol's final flag and its signals are those of its own machine fed only its own bars |
| BuyAndHold.SymbolRunFiresOnce | tests/test_strategy.py:102-109 | a symbol's own machine queues at most one signal; it queues one if and only if its flag starts down and some MARKET event finds a bar; the flag ends up if and only if it started up or such an event occurred |
| BuyAndHold.AtMostOneLong | tests/test_strategy.py:100-109 | over any events, a listed symbol gets at most one signal, and gets one exactly when its flag started `False` and some MARKET event found a bar; its final flag is `True` exactly when it started `True` or such an event occurred; all signals are LONGs |
| BuyAndHold.FlagLatches | tests/test_strategy.py:106-109 | once a listed symbol's flag is `True`, it stays `True` and the symbol gets no further signal |
| BuyAndHold.RunAppend | tests/test_strategy.py:99-109 | a run over two event sequences back to back is the run over the first continued from its final state by the run over the second |
| BuyAndHold.FlagLatchesAfterPrefix | tests/test_strategy.py:106-109 | if a symbol's flag is `True` after some events, it is still `True` after any further events, which add no signal for it |
| BuyAndHold.UnlistedSymbolsAreSilent | tests/test_strategy.py:103 | a symbol outside `symbol_list` never gets a signal |
| BuyAndHold.RunOrigins | tests/test_strategy.py:103 | every signal of a run comes from an iteration for a listed symbol |
| BuyAndHold.SingleSymbolRun | tests/test_strategy.py:103-109 | with one listed symbol, the queue is exactly what that symbol's own machine queues |
| Scenarios.CrossoverScenario | tests/test_strategy.py:48-83 | with windows 2 and 3 and closes 10, 10, 10, 12, 14, 9, 7, the queue is exactly one LONG at the fourth tick and one EXIT at the sixth, and the symbol ends 'OUT' |
| Scenarios.FiresBeforeLongWindowIsFull | tests/test_strategy.py:62-76 | with windows 2 and 5, a reply of three rising closes already queues a LONG, so there is no guard on the long window being full |
| Scenarios.BuyAndHoldScenario | tests/test_strategy.py:99-109 | over three bars, the queue is exactly one LONG carrying the first bar's datetime, and the flag ends `True` |

## Left out

- The engine: `Backtest`, `HistoricCSVDataHandler`, `NaivePortfolio`,
  `SimulatedExecutionHandler`, `SignalEvent` and the `Strategy` base class
  (tests/test_strategy.py:4-9). Their source is not part of this model.
- The `__main__` block (tests/test_strategy.py:112-131). It only wires
  the engine together with a CSV directory, dates and capital.
- The data handler is an input, not a component. Each call receives a feed.
  For the crossover strategy, the feed is the reply to
  `get_latest_bars_values(symbol, "close", N=long_window)` plus the latest
  bar datetime. For buy-and-hold, it is the reply to `get_latest_bars(s)`.
- Crossover.CalculateSignals: the feed's close lists are not required to
  hold at most `long_window` values. The handler's promise to return at
  most `N` values belongs to code not shown here. The model handles
  replies of any length.
- Floating point: closes are exact reals and `np.mean` is an exact mean,
  with NaN only for an empty slice. Rounding in sums and float
  comparisons is not modelled.
- Datetimes are opaque values that the strategies only copy into signals.
  For buy-and-hold, the signal's symbol and datetime are copied from
  `bar[0][0]` and `bar[0][1]`. They are not assumed to equal the loop
  symbol.
- Crossover.WalkEmissions: the order claim is that the loop symbols of
  the queued signals form a subsequence of `symbol_list`. When a symbol is
  listed twice, this does not say which of its entries fired.
  `Crossover.WalkIsLocal` says the symbol gets at most one signal, and
  `Crossover.WalkWithoutDuplicates` gives the exact queue for lists without
  duplicates.
- BuyAndHold.WalkEmissions: the same looseness for a symbol listed twice;
  `BuyAndHold.WalkIsLocal` and `BuyAndHold.WalkWithoutDuplicates` give the
  at-most-one and exact-queue statements.
- Crossover.FlatClosesAreQuiet: holds in exact arithmetic only. In IEEE
  doubles the mean of equal closes can differ with the slice length: with
  windows 2 and 3 and closes 0.1, 0.1, 0.1, the short mean is 0.1 and the
  long mean is 0.10000000000000002, so from 'LONG' the source queues an
  EXIT. The lemma states the exact-arithmetic behaviour.
- Numpy array semantics of `bars != []`: the reply is a plain list. The
  test is "the list is non-empty".
- Missing keys: `self.bought[symbol]` raises `KeyError` in Python for a
  symbol without an entry. The model requires every listed symbol to be
  keyed, as the constructor guarantees and every operation preserves. No
  `KeyError` path is modelled.
- The buy-and-hold constructor stores the queue as `self.event`, while the
  crossover constructor uses `self.events`. The queue is the returned list
  of emissions in both models, so the attribute name plays no part.
- Scenarios.BuyAndHoldScenario: the latest bar in every tick carries the
  same symbol as the listed one. Price fields of bars are not read by the
  strategy and are not modelled.
