/** `MovingAverageCrossStrategy`: for every symbol, go long when the short
    simple moving average of the closes is above the long one, and exit when
    it falls back below. The strategy object is a record; `calculate_signals`
    is a pure function from the record, the event and the data handler's
    answers to the updated record and the signals queued. */
module Crossover {
  import opened Events
  import opened Numeric

  /** The constructor's default look-back windows. */
  const DefaultShortWindow: int := 100
  const DefaultLongWindow: int := 400

  /** A value of `self.bought[symbol]`: 'OUT' or 'LONG'. */
  datatype Bought = Out | Held

  function Flip(p: Bought): Bought
  {
    if p == Out then Held else Out
  }

  /** The direction of the only signal that can leave state `p`. */
  function Leaving(p: Bought): Direction
  {
    if p == Out then Long else Exit
  }

  /** What the data handler answers during one call: the reply to
      `get_latest_bars_values(symbol, "close", N=long_window)`, where `None`
      is Python's `None`, and `get_latest_bar_datetime(symbol)`. */
  datatype CloseFeed = CloseFeed(closes: Symbol -> Option<seq<real>>, latestStamp: Symbol -> Stamp)

  /** The strategy object: its `symbol_list`, its windows and `self.bought`. */
  datatype Strategy = Strategy(
    symbols: seq<Symbol>,
    shortWindow: int,
    longWindow: int,
    bought: map<Symbol, Bought>)

  /** Every listed symbol has an entry in `bought`, so no lookup can fail. */
  predicate Valid(st: Strategy)
  {
    Keyed(st.symbols, st.bought)
  }

  /** `_calculate_initial_bought`: every listed symbol is 'OUT', and nothing
      else has an entry. */
  function InitialBought(symbols: seq<Symbol>): (b: map<Symbol, Bought>)
    ensures forall s :: s in b <==> s in symbols
    ensures forall s :: s in b ==> b[s] == Out
  {
    map s | s in symbols :: Out
  }

  /** The constructor, with the source's default windows. */
  function New(symbols: seq<Symbol>, shortWindow: int := DefaultShortWindow,
               longWindow: int := DefaultLongWindow): (st: Strategy)
    ensures Valid(st)
    ensures st.symbols == symbols && st.shortWindow == shortWindow && st.longWindow == longWindow
    ensures forall i :: 0 <= i < |symbols| ==> st.bought[symbols[i]] == Out
  {
    Strategy(symbols, shortWindow, longWindow, InitialBought(symbols))
  }

  /** `np.mean(bars[-k:])`, the average of the last `k` closes of the reply,
      taken with `k = short_window` and with `k = long_window`. For a
      positive `k` it is NaN only on an empty reply and is otherwise the mean
      of the last `min(k, n)` closes; a slice that Python leaves empty gives
      NaN. */
  function Sma(k: int, closes: seq<real>): (m: Mean)
    ensures m.Num? ==> m.count <= |closes| && m.sum == Sum(closes[|closes| - m.count..])
    ensures k > 0 ==> (m.NaN? <==> closes == []) && (m.Num? ==> m.count == Min(k, |closes|))
    ensures k == 0 ==> m == MeanOf(closes)
    ensures k < 0 ==> (m.NaN? <==> |closes| <= -k) && (m.Num? ==> m.count == |closes| + k)
  {
    MeanOf(PySuffix(closes, k))
  }

  /** One iteration of the loop in `calculate_signals`, for symbol `s` in
      state `pos`: the new state and the signal put on the queue, if any. */
  function SymbolStep(shortWindow: int, longWindow: int, s: Symbol, pos: Bought,
                      window: Option<seq<real>>, stamp: Stamp): (r: (Bought, Option<SignalEvent>))
    ensures r.1.None? ==> r.0 == pos
    ensures r.1.Some? ==> r.0 == Flip(pos) && r.1.value == SignalEvent(StrategyId, s, stamp, Leaving(pos), Strength)
  {
    if window.None? || window.value == [] then (pos, None)
    else
      var shortSma := Sma(shortWindow, window.value);
      var longSma := Sma(longWindow, window.value);
      if Greater(shortSma, longSma) && pos == Out then
        (Held, Some(SignalEvent(StrategyId, s, stamp, Long, Strength)))
      else if Less(shortSma, longSma) && pos == Held then
        (Out, Some(SignalEvent(StrategyId, s, stamp, Exit, Strength)))
      else
        (pos, None)
  }

  /** A LONG is emitted exactly when the window is non-empty, both averages
      are numbers, the short one is above the long one and the symbol is
      'OUT'; an EXIT exactly when the window is non-empty, both averages are
      numbers, the short one is below the long one and the symbol is 'LONG'. */
  lemma EntryAndExitConditions(shortWindow: int, longWindow: int, s: Symbol, pos: Bought,
                               window: Option<seq<real>>, stamp: Stamp)
    ensures var r := SymbolStep(shortWindow, longWindow, s, pos, window, stamp);
      && (r.1.Some? && r.1.value.direction == Long
          <==> (&& window.Some? && window.value != []
                && (var short := Sma(shortWindow, window.value);
                    var long := Sma(longWindow, window.value);
                    short.Num? && long.Num? && Value(short) > Value(long))
                && pos == Out))
      && (r.1.Some? && r.1.value.direction == Exit
          <==> (&& window.Some? && window.value != []
                && (var short := Sma(shortWindow, window.value);
                    var long := Sma(longWindow, window.value);
                    short.Num? && long.Num? && Value(short) < Value(long))
                && pos == Held))
      && (r.1.Some? ==> r.1.value.direction != Short)
  {
  }

  /** No window, an empty window, a NaN average or two averages of equal
      value: nothing is emitted and the state is kept. */
  lemma QuietWithoutCrossing(shortWindow: int, longWindow: int, s: Symbol, pos: Bought,
                             window: Option<seq<real>>, stamp: Stamp)
    requires || window.None? || window.value == []
             || Sma(shortWindow, window.value).NaN? || Sma(longWindow, window.value).NaN?
             || Value(Sma(shortWindow, window.value)) == Value(Sma(longWindow, window.value))
    ensures SymbolStep(shortWindow, longWindow, s, pos, window, stamp) == (pos, None)
  {
    if window.Some? && window.value != [] {
      var short, long := Sma(shortWindow, window.value), Sma(longWindow, window.value);
      if short.Num? && long.Num? {
        EqualMeansDoNotCompare(short, long);
      }
    }
  }

  /** When the handler returns at most `long_window` closes and the short
      window is at least as long as the reply, both slices are the whole
      reply, the averages coincide and nothing fires. */
  lemma QuietWhileShortWindowCoversData(shortWindow: int, longWindow: int, s: Symbol, pos: Bought,
                                        w: seq<real>, stamp: Stamp)
    requires 1 <= |w| <= longWindow
    requires shortWindow >= |w|
    ensures Sma(shortWindow, w) == Sma(longWindow, w) == MeanOf(w)
    ensures SymbolStep(shortWindow, longWindow, s, pos, Some(w), stamp) == (pos, None)
  {
    assert PySuffix(w, shortWindow) == w[0..] == w;
    assert PySuffix(w, longWindow) == w[0..] == w;
  }

  /** Flat closes never fire, whatever the windows: every non-empty slice of
      a flat reply averages to the same value. */
  lemma FlatClosesAreQuiet(shortWindow: int, longWindow: int, s: Symbol, pos: Bought,
                           closes: seq<real>, c: real, stamp: Stamp)
    requires forall i :: 0 <= i < |closes| ==> closes[i] == c
    ensures SymbolStep(shortWindow, longWindow, s, pos, Some(closes), stamp) == (pos, None)
  {
    var short, long := PySuffix(closes, shortWindow), PySuffix(closes, longWindow);
    if short != [] && long != [] {
      assert forall i :: 0 <= i < |short| ==> short[i] == closes[|closes| - |short| + i];
      assert forall i :: 0 <= i < |long| ==> long[i] == closes[|closes| - |long| + i];
      MeanOfConstant(short, c);
      MeanOfConstant(long, c);
    }
    QuietWithoutCrossing(shortWindow, longWindow, s, pos, Some(closes), stamp);
  }

  /** A second iteration for the same symbol on the same data changes
      nothing: the state reached after a signal is not left again until the
      averages move. */
  lemma SymbolStepSettles(shortWindow: int, longWindow: int, s: Symbol, pos: Bought,
                          window: Option<seq<real>>, stamp: Stamp)
    ensures var r := SymbolStep(shortWindow, longWindow, s, pos, window, stamp);
            SymbolStep(shortWindow, longWindow, s, r.0, window, stamp) == (r.0, None)
  {
  }

  /** The loop `for symbol in self.symbol_list`, from the front. */
  function Walk(shortWindow: int, longWindow: int, syms: seq<Symbol>,
                bought: map<Symbol, Bought>, feed: CloseFeed): (r: (map<Symbol, Bought>, seq<Emission>))
    requires Keyed(syms, bought)
    ensures r.0.Keys == bought.Keys
    ensures |r.1| <= |syms|
    decreases |syms|
  {
    if syms == [] then (bought, [])
    else
      var s := syms[0];
      var step := SymbolStep(shortWindow, longWindow, s, bought[s], feed.closes(s), feed.latestStamp(s));
      var rest := Walk(shortWindow, longWindow, syms[1..], bought[s := step.0], feed);
      var ems := Emit(s, step.1) + rest.1;
      (rest.0, ems)
  }

  /** A signal as the crossover strategy builds it: for the loop symbol,
      stamped with that symbol's latest bar datetime, id 1, strength 1.0, and
      never SHORT. */
  predicate Proper(e: Emission, feed: CloseFeed)
  {
    && e.signal.symbol == e.origin
    && e.signal.datetime == feed.latestStamp(e.origin)
    && e.signal.strategyId == StrategyId
    && e.signal.strength == Strength
    && e.signal.direction != Short
  }

  /** The walk emits in `symbol_list` order, and every signal it emits is
      built as the strategy builds signals. */
  lemma {:induction false} WalkEmissions(shortWindow: int, longWindow: int, syms: seq<Symbol>, bought: map<Symbol, Bought>, feed: CloseFeed)
    requires Keyed(syms, bought)
    ensures var r := Walk(shortWindow, longWindow, syms, bought, feed);
            && IsSubsequence(Origins(r.1), syms)
            && forall i :: 0 <= i < |r.1| ==> Proper(r.1[i], feed)
    decreases |syms|
  {
    if syms != [] {
      var s := syms[0];
      var step := SymbolStep(shortWindow, longWindow, s, bought[s], feed.closes(s), feed.latestStamp(s));
      var rest := Walk(shortWindow, longWindow, syms[1..], bought[s := step.0], feed);
      WalkEmissions(shortWindow, longWindow, syms[1..], bought[s := step.0], feed);
      var ems := Emit(s, step.1) + rest.1;
      SubsequenceCons(Origins(rest.1), syms);
      if step.1.Some? {
        assert ems[1..] == rest.1;
        assert Origins(ems) == [s] + Origins(rest.1);
        assert forall i :: 1 <= i < |ems| ==> ems[i] == rest.1[i - 1];
      } else {
        assert ems == rest.1;
      }
    }
  }

  /** What the iteration for `s` queues when it starts from `bought`. */
  function Fire(shortWindow: int, longWindow: int, bought: map<Symbol, Bought>, feed: CloseFeed): Symbol -> Option<SignalEvent>
  {
    s => if s in bought then SymbolStep(shortWindow, longWindow, s, bought[s], feed.closes(s), feed.latestStamp(s)).1 else None
  }

  /** When no symbol is listed twice, the walk queues, in `symbol_list`
      order, exactly the signal each symbol's step gives from the state it
      had before the call. */
  lemma {:induction false} WalkWithoutDuplicates(shortWindow: int, longWindow: int, syms: seq<Symbol>,
                                                 bought: map<Symbol, Bought>, feed: CloseFeed)
    requires Keyed(syms, bought) && Distinct(syms)
    ensures Walk(shortWindow, longWindow, syms, bought, feed).1 == EachOnce(syms, Fire(shortWindow, longWindow, bought, feed))
    decreases |syms|
  {
    if syms != [] {
      var s0 := syms[0];
      var step0 := SymbolStep(shortWindow, longWindow, s0, bought[s0], feed.closes(s0), feed.latestStamp(s0));
      var b1 := bought[s0 := step0.0];
      DistinctTail(syms);
      WalkWithoutDuplicates(shortWindow, longWindow, syms[1..], b1, feed);
      EachOnceAgrees(syms[1..], Fire(shortWindow, longWindow, b1, feed), Fire(shortWindow, longWindow, bought, feed));
    }
  }

  /** The walk's effect on symbol `s` is one `SymbolStep` on `s`'s own state
      and data, however often `s` is listed and whatever the other symbols
      hold: at most one signal per symbol per event, and no symbol's data or
      state influences another's. */
  lemma {:induction false} WalkIsLocal(shortWindow: int, longWindow: int, syms: seq<Symbol>,
                                       bought: map<Symbol, Bought>, feed: CloseFeed, s: Symbol)
    requires Keyed(syms, bought)
    requires s in bought
    ensures var r := Walk(shortWindow, longWindow, syms, bought, feed);
            var step := SymbolStep(shortWindow, longWindow, s, bought[s], feed.closes(s), feed.latestStamp(s));
            if s in syms then r.0[s] == step.0 && EmissionsFor(s, r.1) == Emit(s, step.1)
            else r.0[s] == bought[s] && EmissionsFor(s, r.1) == []
    decreases |syms|
  {
    if syms != [] {
      var s0 := syms[0];
      var step0 := SymbolStep(shortWindow, longWindow, s0, bought[s0], feed.closes(s0), feed.latestStamp(s0));
      var b1 := bought[s0 := step0.0];
      var rest := Walk(shortWindow, longWindow, syms[1..], b1, feed);
      WalkIsLocal(shortWindow, longWindow, syms[1..], b1, feed, s);
      EmissionsForAppend(s, Emit(s0, step0.1), rest.1);
      EmissionsForEmit(s, s0, step0.1);
      if s0 == s {
        SymbolStepSettles(shortWindow, longWindow, s, bought[s], feed.closes(s), feed.latestStamp(s));
      } else {
        assert s in syms <==> s in syms[1..];
      }
    }
  }

  /** `calculate_signals(event)`: only a MARKET event does anything. */
  function CalculateSignals(st: Strategy, event: EventType, feed: CloseFeed): (r: (Strategy, seq<Emission>))
    requires Valid(st)
    ensures Valid(r.0)
    ensures r.0.symbols == st.symbols && r.0.shortWindow == st.shortWindow && r.0.longWindow == st.longWindow
    ensures r.0.bought.Keys == st.bought.Keys
    ensures event != Market ==> r == (st, [])
    ensures FromListed(r.1, st.symbols)
    ensures forall i :: 0 <= i < |r.1| ==> Proper(r.1[i], feed)
  {
    if event == Market then
      var w := Walk(st.shortWindow, st.longWindow, st.symbols, st.bought, feed);
      WalkEmissions(st.shortWindow, st.longWindow, st.symbols, st.bought, feed);
      SubsequenceElements(Origins(w.1), st.symbols);
      (st.(bought := w.0), w.1)
    else
      (st, [])
  }

  /** One iteration of the loop of `calculate_signals`: if the queue so far
      followed by the walk from position `i` is the whole walk, the same
      holds after iteration `i` with the queue and `bought` it leaves. */
  lemma WalkAdvance(shortWindow: int, longWindow: int, syms: seq<Symbol>, i: int,
                    bought: map<Symbol, Bought>, feed: CloseFeed,
                    queued: seq<Emission>, whole: (map<Symbol, Bought>, seq<Emission>))
    requires 0 <= i < |syms| && syms[i] in bought
    requires Keyed(syms[i..], bought)
    requires Walk(shortWindow, longWindow, syms[i..], bought, feed).0 == whole.0
    requires queued + Walk(shortWindow, longWindow, syms[i..], bought, feed).1 == whole.1
    ensures var s := syms[i];
            var step := SymbolStep(shortWindow, longWindow, s, bought[s], feed.closes(s), feed.latestStamp(s));
            && Keyed(syms[i + 1..], bought[s := step.0])
            && Walk(shortWindow, longWindow, syms[i + 1..], bought[s := step.0], feed).0 == whole.0
            && (queued + Emit(s, step.1)) + Walk(shortWindow, longWindow, syms[i + 1..], bought[s := step.0], feed).1 == whole.1
  {
    var s := syms[i];
    var step := SymbolStep(shortWindow, longWindow, s, bought[s], feed.closes(s), feed.latestStamp(s));
    var rest := Walk(shortWindow, longWindow, syms[i + 1..], bought[s := step.0], feed);
    assert syms[i..][0] == s;
    assert syms[i..][1..] == syms[i + 1..];
    assert (queued + Emit(s, step.1)) + rest.1 == queued + (Emit(s, step.1) + rest.1);
  }

  /** The loop of `calculate_signals` as written, with a mutable `bought`
      and the queue as an appended list; it computes the walk. */
  method CalculateSignalsLoop(st: Strategy, event: EventType, feed: CloseFeed)
    returns (st': Strategy, queued: seq<Emission>)
    requires Valid(st)
    ensures (st', queued) == CalculateSignals(st, event, feed)
  {
    st', queued := st, [];
    if event != Market {
      return;
    }
    var bought := st.bought;
    ghost var whole := Walk(st.shortWindow, st.longWindow, st.symbols, st.bought, feed);
    var i := 0;
    while i < |st.symbols|
      invariant 0 <= i <= |st.symbols|
      invariant Keyed(st.symbols[i..], bought)
      invariant Walk(st.shortWindow, st.longWindow, st.symbols[i..], bought, feed).0 == whole.0
      invariant queued + Walk(st.shortWindow, st.longWindow, st.symbols[i..], bought, feed).1 == whole.1
    {
      var s := st.symbols[i];
      var step := SymbolStep(st.shortWindow, st.longWindow, s, bought[s], feed.closes(s), feed.latestStamp(s));
      WalkAdvance(st.shortWindow, st.longWindow, st.symbols, i, bought, feed, queued, whole);
      queued := queued + Emit(s, step.1);
      bought := bought[s := step.0];
      i := i + 1;
    }
    assert st.symbols[i..] == [];
    assert queued == queued + [];
    st' := st.(bought := bought);
  }

  /** One call of `calculate_signals` per tick: the event taken off the queue
      and what the data handler answers during that call. */
  datatype Tick = Tick(event: EventType, feed: CloseFeed)

  /** A whole run: the signals of all calls, in queue order. */
  function Run(st: Strategy, ticks: seq<Tick>): (r: (Strategy, seq<Emission>))
    requires Valid(st)
    ensures Valid(r.0)
    ensures r.0.symbols == st.symbols && r.0.shortWindow == st.shortWindow && r.0.longWindow == st.longWindow
    ensures r.0.bought.Keys == st.bought.Keys
    decreases |ticks|
  {
    if ticks == [] then (st, [])
    else
      var first := CalculateSignals(st, ticks[0].event, ticks[0].feed);
      var rest := Run(first.0, ticks[1..]);
      (rest.0, first.1 + rest.1)
  }

  /** One symbol's machine on its own over a run. */
  function SymbolRun(shortWindow: int, longWindow: int, s: Symbol, pos: Bought,
                     ticks: seq<Tick>): (r: (Bought, seq<Emission>))
    decreases |ticks|
  {
    if ticks == [] then (pos, [])
    else if ticks[0].event != Market then SymbolRun(shortWindow, longWindow, s, pos, ticks[1..])
    else
      var f := ticks[0].feed;
      var step := SymbolStep(shortWindow, longWindow, s, pos, f.closes(s), f.latestStamp(s));
      var rest := SymbolRun(shortWindow, longWindow, s, step.0, ticks[1..]);
      (rest.0, Emit(s, step.1) + rest.1)
  }

  /** Over a whole run, a listed symbol's state and signals are those of its
      own machine fed only its own data. */
  lemma {:induction false} RunIsLocal(st: Strategy, ticks: seq<Tick>, s: Symbol)
    requires Valid(st)
    requires s in st.symbols
    ensures var r := Run(st, ticks);
            var m := SymbolRun(st.shortWindow, st.longWindow, s, st.bought[s], ticks);
            r.0.bought[s] == m.0 && EmissionsFor(s, r.1) == m.1
    decreases |ticks|
  {
    if ticks != [] {
      var first := CalculateSignals(st, ticks[0].event, ticks[0].feed);
      var rest := Run(first.0, ticks[1..]);
      RunIsLocal(first.0, ticks[1..], s);
      EmissionsForAppend(s, first.1, rest.1);
      if ticks[0].event == Market {
        WalkIsLocal(st.shortWindow, st.longWindow, st.symbols, st.bought, ticks[0].feed, s);
      }
    }
  }

  /** Signals alternate: the first leaves `pos`, the next leaves the state
      the first one entered, and so on. */
  predicate AlternatesFrom(pos: Bought, es: seq<Emission>)
    decreases |es|
  {
    es == [] || (es[0].signal.direction == Leaving(pos) && AlternatesFrom(Flip(pos), es[1..]))
  }

  /** A symbol's own machine alternates from its starting state, and ends
      back in it exactly when it emitted an even number of signals. */
  lemma {:induction false} SymbolRunAlternates(shortWindow: int, longWindow: int, s: Symbol,
                                               pos: Bought, ticks: seq<Tick>)
    ensures var m := SymbolRun(shortWindow, longWindow, s, pos, ticks);
            AlternatesFrom(pos, m.1) && (m.0 == pos <==> |m.1| % 2 == 0)
    decreases |ticks|
  {
    if ticks != [] {
      if ticks[0].event != Market {
        SymbolRunAlternates(shortWindow, longWindow, s, pos, ticks[1..]);
      } else {
        var f := ticks[0].feed;
        var step := SymbolStep(shortWindow, longWindow, s, pos, f.closes(s), f.latestStamp(s));
        var rest := SymbolRun(shortWindow, longWindow, s, step.0, ticks[1..]);
        SymbolRunAlternates(shortWindow, longWindow, s, step.0, ticks[1..]);
        var es := Emit(s, step.1) + rest.1;
        if step.1.Some? {
          assert es[1..] == rest.1;
          assert Flip(Flip(pos)) == pos;
          Parity(|es|);
        } else {
          assert es == rest.1;
        }
      }
    }
  }

  /** Alternation starting from 'OUT', by position: LONG at even positions,
      EXIT at odd ones, so no two neighbours agree. */
  lemma {:induction false} AlternatesFromOut(es: seq<Emission>)
    requires AlternatesFrom(Out, es)
    ensures forall i :: 0 <= i < |es| ==> es[i].signal.direction == (if i % 2 == 0 then Long else Exit)
    decreases |es|
  {
    if es != [] {
      AlternatesFromHeld(es[1..]);
      forall i | 1 <= i < |es|
        ensures es[i].signal.direction == (if i % 2 == 0 then Long else Exit)
      {
        assert es[i] == es[1..][i - 1];
        Parity(i);
      }
    }
  }

  lemma {:induction false} AlternatesFromHeld(es: seq<Emission>)
    requires AlternatesFrom(Held, es)
    ensures forall i :: 0 <= i < |es| ==> es[i].signal.direction == (if i % 2 == 0 then Exit else Long)
    decreases |es|
  {
    if es != [] {
      AlternatesFromOut(es[1..]);
      forall i | 1 <= i < |es|
        ensures es[i].signal.direction == (if i % 2 == 0 then Exit else Long)
      {
        assert es[i] == es[1..][i - 1];
        Parity(i);
      }
    }
  }

  lemma Parity(i: int)
    requires i >= 1
    ensures (i - 1) % 2 == 0 <==> i % 2 == 1
  {
  }

  /** Alternation from 'OUT' by position, with its consequence that no two
      neighbours agree. */
  lemma AlternationFromOut(es: seq<Emission>)
    requires AlternatesFrom(Out, es)
    ensures forall i :: 0 <= i < |es| ==> es[i].signal.direction == (if i % 2 == 0 then Long else Exit)
    ensures forall i :: 0 <= i < |es| - 1 ==> es[i].signal.direction != es[i + 1].signal.direction
  {
    AlternatesFromOut(es);
    forall i | 0 <= i < |es| - 1
      ensures es[i].signal.direction != es[i + 1].signal.direction
    {
      Parity(i + 1);
    }
  }

  /** From construction, over any sequence of events, the signals for a
      listed symbol are LONG, EXIT, LONG, ... with never two of a kind in a
      row, and the symbol is 'LONG' exactly after an odd number of them. */
  lemma SignalsAlternate(symbols: seq<Symbol>, shortWindow: int, longWindow: int,
                           ticks: seq<Tick>, s: Symbol)
    requires s in symbols
    ensures var r := Run(New(symbols, shortWindow, longWindow), ticks);
            var es := EmissionsFor(s, r.1);
            && (forall i :: 0 <= i < |es| ==> es[i].signal.direction == (if i % 2 == 0 then Long else Exit))
            && (forall i :: 0 <= i < |es| - 1 ==> es[i].signal.direction != es[i + 1].signal.direction)
            && (r.0.bought[s] == Held <==> |es| % 2 == 1)
  {
    var st := New(symbols, shortWindow, longWindow);
    var r := Run(st, ticks);
    RunIsLocal(st, ticks, s);
    SymbolRunAlternates(shortWindow, longWindow, s, Out, ticks);
    AlternationFromOut(EmissionsFor(s, r.1));
  }

  /** A symbol outside `symbol_list` never gets a signal. */
  lemma UnlistedSymbolsAreSilent(st: Strategy, ticks: seq<Tick>, s: Symbol)
    requires Valid(st)
    requires s !in st.symbols
    ensures EmissionsFor(s, Run(st, ticks).1) == []
  {
    RunOrigins(st, ticks);
    EmissionsForUnlisted(s, Run(st, ticks).1, st.symbols);
  }

  /** A strategy over a single symbol queues exactly what that symbol's own
      machine emits. */
  lemma SingleSymbolRun(st: Strategy, ticks: seq<Tick>, s: Symbol)
    requires Valid(st) && |st.symbols| == 1 && st.symbols[0] == s
    ensures var r := Run(st, ticks);
            var m := SymbolRun(st.shortWindow, st.longWindow, s, st.bought[s], ticks);
            r.0.bought[s] == m.0 && r.1 == m.1
  {
    var r := Run(st, ticks);
    RunIsLocal(st, ticks, s);
    RunOrigins(st, ticks);
    assert st.symbols == [s];
    EmissionsForAll(s, r.1);
  }

  /** Every signal of a run comes from an iteration for a listed symbol. */
  lemma {:induction false} RunOrigins(st: Strategy, ticks: seq<Tick>)
    requires Valid(st)
    ensures FromListed(Run(st, ticks).1, st.symbols)
    decreases |ticks|
  {
    if ticks != [] {
      var first := CalculateSignals(st, ticks[0].event, ticks[0].feed);
      RunOrigins(first.0, ticks[1..]);
      FromListedAppend(first.1, Run(first.0, ticks[1..]).1, st.symbols);
    }
  }

}
