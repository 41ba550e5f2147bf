/** `BuyAndHoldStrategy`: one LONG signal per symbol, the first time the data
    handler has a bar for it, and nothing afterwards. As for the crossover
    strategy, `calculate_signals` is a pure step on a record. */
module BuyAndHold {
  import opened Events

  /** The two fields of a bar the strategy reads: `bar[0]`, the bar's symbol,
      and `bar[1]`, its datetime. The price fields are not read. */
  datatype Bar = Bar(symbol: Symbol, datetime: Stamp)

  /** What the data handler answers during one call: the reply to
      `get_latest_bars(s)`, where `None` is Python's `None`. */
  datatype BarFeed = BarFeed(latestBars: Symbol -> Option<seq<Bar>>)

  /** The strategy object: its `symbol_list` and `self.bought`. */
  datatype Strategy = Strategy(symbols: seq<Symbol>, bought: map<Symbol, bool>)

  /** Every listed symbol has an entry in `bought`, so no lookup can fail. */
  predicate Valid(st: Strategy)
  {
    Keyed(st.symbols, st.bought)
  }

  /** `_calculate_initial_bought`: every listed symbol is `False`, and nothing
      else has an entry. */
  function InitialBought(symbols: seq<Symbol>): (b: map<Symbol, bool>)
    ensures forall s :: s in b <==> s in symbols
    ensures forall s :: s in b ==> !b[s]
  {
    map s | s in symbols :: false
  }

  /** The constructor. */
  function New(symbols: seq<Symbol>): (st: Strategy)
    ensures Valid(st)
    ensures st.symbols == symbols
    ensures forall i :: 0 <= i < |symbols| ==> !st.bought[symbols[i]]
  {
    Strategy(symbols, InitialBought(symbols))
  }

  /** `bar is not None and bar != []`. */
  predicate HasBar(bars: Option<seq<Bar>>)
  {
    bars.Some? && bars.value != []
  }

  /** One iteration of the loop in `calculate_signals`, for a symbol whose
      flag is `flag`: the new flag and the signal put on the queue, if any. */
  function SymbolStep(flag: bool, bars: Option<seq<Bar>>): (r: (bool, Option<SignalEvent>))
    ensures flag ==> r == (flag, None)
    ensures r.1.Some? ==> r.0 && r.1.value.direction == Long
  {
    if HasBar(bars) && !flag then
      (true, Some(SignalEvent(StrategyId, bars.value[0].symbol, bars.value[0].datetime, Long, Strength)))
    else
      (flag, None)
  }

  /** A signal is emitted exactly when the flag is down and a bar is there;
      it is a LONG of strategy 1 with strength 1.0 whose symbol and datetime
      are copied from the first bar of the reply; the flag is up afterwards
      exactly when it was up before or a bar was there. */
  lemma FirstBarFires(flag: bool, bars: Option<seq<Bar>>)
    ensures var r := SymbolStep(flag, bars);
            && (r.1.Some? <==> !flag && HasBar(bars))
            && (r.0 <==> flag || HasBar(bars))
            && (r.1.Some? ==> r.1.value == SignalEvent(StrategyId, bars.value[0].symbol,
                                                        bars.value[0].datetime, Long, Strength))
  {
  }

  /** The loop `for s in self.symbol_list`, from the front. */
  function Walk(syms: seq<Symbol>, bought: map<Symbol, bool>, feed: BarFeed): (r: (map<Symbol, bool>, seq<Emission>))
    requires Keyed(syms, bought)
    ensures r.0.Keys == bought.Keys
    ensures |r.1| <= |syms|
    decreases |syms|
  {
    if syms == [] then (bought, [])
    else
      var s := syms[0];
      var step := SymbolStep(bought[s], feed.latestBars(s));
      var rest := Walk(syms[1..], bought[s := step.0], feed);
      var ems := Emit(s, step.1) + rest.1;
      (rest.0, ems)
  }

  /** A signal as the buy-and-hold strategy builds it: a LONG of strategy 1
      with strength 1.0. */
  predicate Proper(e: Emission)
  {
    && e.signal.direction == Long
    && e.signal.strategyId == StrategyId
    && e.signal.strength == Strength
  }

  /** The walk emits in `symbol_list` order, and every signal it emits is
      built as the strategy builds signals. */
  lemma {:induction false} WalkEmissions(syms: seq<Symbol>, bought: map<Symbol, bool>, feed: BarFeed)
    requires Keyed(syms, bought)
    ensures var r := Walk(syms, bought, feed);
            && IsSubsequence(Origins(r.1), syms)
            && forall i :: 0 <= i < |r.1| ==> Proper(r.1[i])
    decreases |syms|
  {
    if syms != [] {
      var s := syms[0];
      var step := SymbolStep(bought[s], feed.latestBars(s));
      var rest := Walk(syms[1..], bought[s := step.0], feed);
      WalkEmissions(syms[1..], bought[s := step.0], feed);
      var ems := Emit(s, step.1) + rest.1;
      SubsequenceCons(Origins(rest.1), syms);
      if step.1.Some? {
        assert ems[1..] == rest.1;
        assert Origins(ems) == [s] + Origins(rest.1);
        assert forall i :: 1 <= i < |ems| ==> ems[i] == rest.1[i - 1];
      } else {
        assert ems == rest.1;
      }
    }
  }

  /** What the iteration for `s` queues when it starts from `bought`. */
  function Fire(bought: map<Symbol, bool>, feed: BarFeed): Symbol -> Option<SignalEvent>
  {
    s => if s in bought then SymbolStep(bought[s], feed.latestBars(s)).1 else None
  }

  /** When no symbol is listed twice, the walk queues, in `symbol_list`
      order, exactly the signal each symbol's step gives from the state it
      had before the call. */
  lemma {:induction false} WalkWithoutDuplicates(syms: seq<Symbol>,
                                                 bought: map<Symbol, bool>, feed: BarFeed)
    requires Keyed(syms, bought) && Distinct(syms)
    ensures Walk(syms, bought, feed).1 == EachOnce(syms, Fire(bought, feed))
    decreases |syms|
  {
    if syms != [] {
      var s0 := syms[0];
      var step0 := SymbolStep(bought[s0], feed.latestBars(s0));
      var b1 := bought[s0 := step0.0];
      DistinctTail(syms);
      WalkWithoutDuplicates(syms[1..], b1, feed);
      EachOnceAgrees(syms[1..], Fire(b1, feed), Fire(bought, feed));
    }
  }

  /** The walk's effect on symbol `s` is one `SymbolStep` on `s`'s own flag
      and bars, however often `s` is listed and whatever the other symbols
      hold. */
  lemma {:induction false} WalkIsLocal(syms: seq<Symbol>, bought: map<Symbol, bool>, feed: BarFeed, s: Symbol)
    requires Keyed(syms, bought)
    requires s in bought
    ensures var r := Walk(syms, bought, feed);
            var step := SymbolStep(bought[s], feed.latestBars(s));
            if s in syms then r.0[s] == step.0 && EmissionsFor(s, r.1) == Emit(s, step.1)
            else r.0[s] == bought[s] && EmissionsFor(s, r.1) == []
    decreases |syms|
  {
    if syms != [] {
      var s0 := syms[0];
      var step0 := SymbolStep(bought[s0], feed.latestBars(s0));
      var b1 := bought[s0 := step0.0];
      var rest := Walk(syms[1..], b1, feed);
      WalkIsLocal(syms[1..], b1, feed, s);
      EmissionsForAppend(s, Emit(s0, step0.1), rest.1);
      EmissionsForEmit(s, s0, step0.1);
      if s0 != s {
        assert s in syms <==> s in syms[1..];
      }
    }
  }

  /** `calculate_signals(event)`: only a MARKET event does anything. */
  function CalculateSignals(st: Strategy, event: EventType, feed: BarFeed): (r: (Strategy, seq<Emission>))
    requires Valid(st)
    ensures Valid(r.0)
    ensures r.0.symbols == st.symbols
    ensures r.0.bought.Keys == st.bought.Keys
    ensures event != Market ==> r == (st, [])
    ensures FromListed(r.1, st.symbols)
    ensures forall i :: 0 <= i < |r.1| ==> Proper(r.1[i])
  {
    if event == Market then
      var w := Walk(st.symbols, st.bought, feed);
      WalkEmissions(st.symbols, st.bought, feed);
      SubsequenceElements(Origins(w.1), st.symbols);
      (st.(bought := w.0), w.1)
    else
      (st, [])
  }

  /** One iteration of the loop of `calculate_signals`: if the queue so far
      followed by the walk from position `i` is the whole walk, the same
      holds after iteration `i` with the queue and `bought` it leaves. */
  lemma WalkAdvance(syms: seq<Symbol>, i: int, bought: map<Symbol, bool>, feed: BarFeed,
                    queued: seq<Emission>, whole: (map<Symbol, bool>, seq<Emission>))
    requires 0 <= i < |syms| && syms[i] in bought
    requires Keyed(syms[i..], bought)
    requires Walk(syms[i..], bought, feed).0 == whole.0
    requires queued + Walk(syms[i..], bought, feed).1 == whole.1
    ensures var s := syms[i];
            var step := SymbolStep(bought[s], feed.latestBars(s));
            && Keyed(syms[i + 1..], bought[s := step.0])
            && Walk(syms[i + 1..], bought[s := step.0], feed).0 == whole.0
            && (queued + Emit(s, step.1)) + Walk(syms[i + 1..], bought[s := step.0], feed).1 == whole.1
  {
    var s := syms[i];
    var step := SymbolStep(bought[s], feed.latestBars(s));
    var rest := Walk(syms[i + 1..], bought[s := step.0], feed);
    assert syms[i..][0] == s;
    assert syms[i..][1..] == syms[i + 1..];
    assert (queued + Emit(s, step.1)) + rest.1 == queued + (Emit(s, step.1) + rest.1);
  }

  /** The loop of `calculate_signals` as written, with a mutable `bought`
      and the queue as an appended list; it computes the walk. */
  method CalculateSignalsLoop(st: Strategy, event: EventType, feed: BarFeed)
    returns (st': Strategy, queued: seq<Emission>)
    requires Valid(st)
    ensures (st', queued) == CalculateSignals(st, event, feed)
  {
    st', queued := st, [];
    if event != Market {
      return;
    }
    var bought := st.bought;
    ghost var whole := Walk(st.symbols, st.bought, feed);
    var i := 0;
    while i < |st.symbols|
      invariant 0 <= i <= |st.symbols|
      invariant Keyed(st.symbols[i..], bought)
      invariant Walk(st.symbols[i..], bought, feed).0 == whole.0
      invariant queued + Walk(st.symbols[i..], bought, feed).1 == whole.1
    {
      var s := st.symbols[i];
      var step := SymbolStep(bought[s], feed.latestBars(s));
      WalkAdvance(st.symbols, i, bought, feed, queued, whole);
      queued := queued + Emit(s, step.1);
      bought := bought[s := step.0];
      i := i + 1;
    }
    assert st.symbols[i..] == [];
    assert queued == queued + [];
    st' := st.(bought := bought);
  }

  /** One call of `calculate_signals`: the event taken off the queue and what
      the data handler answers during that call. */
  datatype Tick = Tick(event: EventType, feed: BarFeed)

  /** A whole run: the signals of all calls, in queue order. */
  function Run(st: Strategy, ticks: seq<Tick>): (r: (Strategy, seq<Emission>))
    requires Valid(st)
    ensures Valid(r.0)
    ensures r.0.symbols == st.symbols
    ensures r.0.bought.Keys == st.bought.Keys
    ensures forall i :: 0 <= i < |r.1| ==> Proper(r.1[i])
    decreases |ticks|
  {
    if ticks == [] then (st, [])
    else
      var first := CalculateSignals(st, ticks[0].event, ticks[0].feed);
      var rest := Run(first.0, ticks[1..]);
      var ems := first.1 + rest.1;
      assert forall i :: 0 <= i < |ems| ==> ems[i] == if i < |first.1| then first.1[i] else rest.1[i - |first.1|];
      (rest.0, ems)
  }

  /** Tick `t` is a MARKET event during which the handler has a bar for `s`. */
  predicate BarSeen(t: Tick, s: Symbol)
  {
    t.event == Market && HasBar(t.feed.latestBars(s))
  }

  /** One symbol's machine on its own over a run. */
  function SymbolRun(s: Symbol, flag: bool, ticks: seq<Tick>): (r: (bool, seq<Emission>))
    decreases |ticks|
  {
    if ticks == [] then (flag, [])
    else if ticks[0].event != Market then SymbolRun(s, flag, ticks[1..])
    else
      var step := SymbolStep(flag, ticks[0].feed.latestBars(s));
      var rest := SymbolRun(s, step.0, ticks[1..]);
      (rest.0, Emit(s, step.1) + rest.1)
  }

  /** Over a whole run, a listed symbol's flag and signals are those of its
      own machine fed only its own bars. */
  lemma {:induction false} RunIsLocal(st: Strategy, ticks: seq<Tick>, s: Symbol)
    requires Valid(st)
    requires s in st.symbols
    ensures var r := Run(st, ticks);
            var m := SymbolRun(s, st.bought[s], ticks);
            r.0.bought[s] == m.0 && EmissionsFor(s, r.1) == m.1
    decreases |ticks|
  {
    if ticks != [] {
      var first := CalculateSignals(st, ticks[0].event, ticks[0].feed);
      var rest := Run(first.0, ticks[1..]);
      RunIsLocal(first.0, ticks[1..], s);
      EmissionsForAppend(s, first.1, rest.1);
      if ticks[0].event == Market {
        WalkIsLocal(st.symbols, st.bought, ticks[0].feed, s);
      }
    }
  }

  /** A symbol's own machine emits at most once; it emits exactly when its
      flag starts down and some MARKET event finds a bar, and the flag ends up
      exactly when it started up or some MARKET event found a bar. */
  lemma {:induction false} SymbolRunFiresOnce(s: Symbol, flag: bool, ticks: seq<Tick>)
    ensures var m := SymbolRun(s, flag, ticks);
            && |m.1| <= 1
            && (|m.1| == 1 <==> !flag && exists i :: 0 <= i < |ticks| && BarSeen(ticks[i], s))
            && (m.0 <==> flag || exists i :: 0 <= i < |ticks| && BarSeen(ticks[i], s))
    decreases |ticks|
  {
    if ticks != [] {
      var flag' := if BarSeen(ticks[0], s) then true else flag;
      SymbolRunFiresOnce(s, flag', ticks[1..]);
      var m := SymbolRun(s, flag, ticks);
      if BarSeen(ticks[0], s) {
        assert m.0;
      } else {
        var seen := exists i :: 0 <= i < |ticks| && BarSeen(ticks[i], s);
        var seenLater := exists i :: 0 <= i < |ticks[1..]| && BarSeen(ticks[1..][i], s);
        assert seen ==> seenLater by {
          if seen {
            var i :| 0 <= i < |ticks| && BarSeen(ticks[i], s);
            assert i > 0 && ticks[1..][i - 1] == ticks[i];
          }
        }
        assert seenLater ==> seen by {
          if seenLater {
            var i :| 0 <= i < |ticks[1..]| && BarSeen(ticks[1..][i], s);
            assert ticks[i + 1] == ticks[1..][i];
          }
        }
        if ticks[0].event == Market {
          assert SymbolStep(flag, ticks[0].feed.latestBars(s)) == (flag, None);
        }
      }
    }
  }

  /** Over any sequence of events, a listed symbol gets at most one signal;
      it gets one exactly when its flag started `False` and some MARKET event
      found a bar for it, and its flag ends `True` exactly when it started
      `True` or such an event occurred. All signals are LONGs of strategy 1
      with strength 1.0. */
  lemma AtMostOneLong(st: Strategy, ticks: seq<Tick>, s: Symbol)
    requires Valid(st)
    requires s in st.symbols
    ensures var r := Run(st, ticks);
            var es := EmissionsFor(s, r.1);
            && |es| <= 1
            && (|es| == 1 <==> !st.bought[s] && exists i :: 0 <= i < |ticks| && BarSeen(ticks[i], s))
            && (r.0.bought[s] <==> st.bought[s] || exists i :: 0 <= i < |ticks| && BarSeen(ticks[i], s))
            && (forall i :: 0 <= i < |r.1| ==> r.1[i].signal.direction == Long)
  {
    RunIsLocal(st, ticks, s);
    SymbolRunFiresOnce(s, st.bought[s], ticks);
  }

  /** Once a listed symbol's flag is `True` it stays `True` for the rest of
      the run, and the symbol gets no further signal. */
  lemma FlagLatches(st: Strategy, ticks: seq<Tick>, s: Symbol)
    requires Valid(st)
    requires s in st.symbols
    requires st.bought[s]
    ensures Run(st, ticks).0.bought[s]
    ensures EmissionsFor(s, Run(st, ticks).1) == []
  {
    RunIsLocal(st, ticks, s);
    SymbolRunFiresOnce(s, st.bought[s], ticks);
  }

  /** A run over `a + b` is the run over `a` continued by the run over `b`,
      so `FlagLatches` applies to the state after any prefix of a run. */
  lemma {:induction false} RunAppend(st: Strategy, a: seq<Tick>, b: seq<Tick>)
    requires Valid(st)
    ensures var ra := Run(st, a);
            var rb := Run(ra.0, b);
            Run(st, a + b) == (rb.0, ra.1 + rb.1)
    decreases |a|
  {
    if a == [] {
      assert a + b == b;
      var rb := Run(st, b);
      assert [] + rb.1 == rb.1;
    } else {
      var first := CalculateSignals(st, a[0].event, a[0].feed);
      assert (a + b)[0] == a[0];
      assert (a + b)[1..] == a[1..] + b;
      RunAppend(first.0, a[1..], b);
      var ra' := Run(first.0, a[1..]);
      var rb := Run(ra'.0, b);
      assert first.1 + (ra'.1 + rb.1) == (first.1 + ra'.1) + rb.1;
    }
  }

  /** If a listed symbol's flag is `True` after the events `a`, it is still
      `True` after any further events `b`, and `b` adds no signal for it. */
  lemma FlagLatchesAfterPrefix(st: Strategy, a: seq<Tick>, b: seq<Tick>, s: Symbol)
    requires Valid(st)
    requires s in st.symbols
    requires Run(st, a).0.bought[s]
    ensures Run(st, a + b).0.bought[s]
    ensures EmissionsFor(s, Run(st, a + b).1) == EmissionsFor(s, Run(st, a).1)
  {
    var ra := Run(st, a);
    RunAppend(st, a, b);
    FlagLatches(ra.0, b, s);
    EmissionsForAppend(s, ra.1, Run(ra.0, b).1);
  }

  /** A strategy over a single symbol queues exactly what that symbol's own
      machine emits. */
  lemma SingleSymbolRun(st: Strategy, ticks: seq<Tick>, s: Symbol)
    requires Valid(st) && |st.symbols| == 1 && st.symbols[0] == s
    ensures var r := Run(st, ticks);
            var m := SymbolRun(s, st.bought[s], ticks);
            r.0.bought[s] == m.0 && r.1 == m.1
  {
    var r := Run(st, ticks);
    RunIsLocal(st, ticks, s);
    RunOrigins(st, ticks);
    assert st.symbols == [s];
    EmissionsForAll(s, r.1);
  }

  /** Every signal of a run comes from an iteration for a listed symbol. */
  lemma {:induction false} RunOrigins(st: Strategy, ticks: seq<Tick>)
    requires Valid(st)
    ensures FromListed(Run(st, ticks).1, st.symbols)
    decreases |ticks|
  {
    if ticks != [] {
      var first := CalculateSignals(st, ticks[0].event, ticks[0].feed);
      RunOrigins(first.0, ticks[1..]);
      FromListedAppend(first.1, Run(first.0, ticks[1..]).1, st.symbols);
    }
  }

  /** A symbol outside `symbol_list` never gets a signal. */
  lemma UnlistedSymbolsAreSilent(st: Strategy, ticks: seq<Tick>, s: Symbol)
    requires Valid(st)
    requires s !in st.symbols
    ensures EmissionsFor(s, Run(st, ticks).1) == []
  {
    RunOrigins(st, ticks);
    EmissionsForUnlisted(s, Run(st, ticks).1, st.symbols);
  }
}
