/** Concrete runs on one symbol: a crossover run with short window 2, long
    window 3 and closes 10, 10, 10, 12, 14, 9, 7, and a buy-and-hold run over
    three bars. The symbol is left as a parameter: the data handler answers
    the same for every symbol. */
module Scenarios {
  import opened Events
  import opened Numeric
  import Crossover
  import BuyAndHold

  /** A MARKET event during which the handler's reply for every symbol is
      `window`, stamped `stamp`. */
  function CloseTick(window: seq<real>, stamp: Stamp): Crossover.Tick
  {
    Crossover.Tick(Market, Crossover.CloseFeed(_ => Some(window), _ => stamp))
  }

  /** Seven ticks with closes 10, 10, 10, 12, 14, 9, 7, each tick answering
      with the last (at most) three of them, stamped t0 to t6. */
  ghost predicate CrossShape(ticks: seq<Crossover.Tick>)
  {
    && |ticks| == 7
    && ticks[0] == CloseTick([10.0], "t0")
    && ticks[1] == CloseTick([10.0, 10.0], "t1")
    && ticks[2] == CloseTick([10.0, 10.0, 10.0], "t2")
    && ticks[3] == CloseTick([10.0, 10.0, 12.0], "t3")
    && ticks[4] == CloseTick([10.0, 12.0, 14.0], "t4")
    && ticks[5] == CloseTick([12.0, 14.0, 9.0], "t5")
    && ticks[6] == CloseTick([14.0, 9.0, 7.0], "t6")
  }

  /** What the crossover run queues from t4 on: EXIT at t5. */
  function LateEmissions(s: Symbol): seq<Emission>
  {
    [Emission(s, SignalEvent(StrategyId, s, "t5", Exit, Strength))]
  }

  /** What the whole crossover run queues: LONG at t3, then EXIT at t5. */
  function CrossEmissions(s: Symbol): seq<Emission>
  {
    [Emission(s, SignalEvent(StrategyId, s, "t3", Long, Strength))] + LateEmissions(s)
  }

  /** With windows 2 and 3, a reply of three closes `a, b, c` is averaged as
      `(b + c) / 2` against `(a + b + c) / 3`. */
  lemma AveragesOfThree(a: real, b: real, c: real)
    ensures Crossover.Sma(2, [a, b, c]) == Num(b + c, 2)
    ensures Crossover.Sma(3, [a, b, c]) == Num(a + b + c, 3)
    ensures Scale(b + c, 3) == 3.0 * (b + c) && Scale(a + b + c, 2) == 2.0 * (a + b + c)
  {
    var w := [a, b, c];
    assert PySuffix(w, 2) == [b, c];
    assert PySuffix(w, 3) == w;
    assert Sum([c]) == c;
    assert Sum([b, c]) == b + Sum([c]);
    assert Sum(w) == a + Sum([b, c]);
    ScaleIsProduct(b + c, 3);
    ScaleIsProduct(a + b + c, 2);
  }

  /** The decision on a reply of three closes, with windows 2 and 3. */
  lemma StepOnThree(s: Symbol, pos: Crossover.Bought, a: real, b: real, c: real, stamp: Stamp)
    ensures Crossover.SymbolStep(2, 3, s, pos, Some([a, b, c]), stamp)
         == if 3.0 * (b + c) > 2.0 * (a + b + c) && pos == Crossover.Out then
              (Crossover.Held, Some(SignalEvent(StrategyId, s, stamp, Long, Strength)))
            else if 3.0 * (b + c) < 2.0 * (a + b + c) && pos == Crossover.Held then
              (Crossover.Out, Some(SignalEvent(StrategyId, s, stamp, Exit, Strength)))
            else
              (pos, None)
  {
    AveragesOfThree(a, b, c);
  }

  /** The run from tick `k` is the step at tick `k` followed by the run from
      tick `k + 1`. */
  lemma CrossRunFrom(s: Symbol, ticks: seq<Crossover.Tick>, k: nat, pos: Crossover.Bought, w: seq<real>,
                     stamp: Stamp, next: Crossover.Bought, em: Option<SignalEvent>,
                     fin: Crossover.Bought, tail: seq<Emission>)
    requires k < |ticks| && ticks[k] == CloseTick(w, stamp)
    requires Crossover.SymbolStep(2, 3, s, pos, Some(w), stamp) == (next, em)
    requires Crossover.SymbolRun(2, 3, s, next, ticks[k + 1..]) == (fin, tail)
    ensures em == None ==> Crossover.SymbolRun(2, 3, s, pos, ticks[k..]) == (fin, tail)
    ensures em.Some? ==> Crossover.SymbolRun(2, 3, s, pos, ticks[k..]) == (fin, [Emission(s, em.value)] + tail)
  {
    assert ticks[k..][0] == ticks[k];
    assert ticks[k..][1..] == ticks[k + 1..];
    assert Emit(s, None) + tail == tail;
  }

  /** t6, 'OUT': the short average is below the long one (3 * 16 < 2 * 30),
      which matters only when 'LONG'. */
  lemma CrossRunFrom6(s: Symbol, ticks: seq<Crossover.Tick>)
    requires |ticks| == 7 && ticks[6] == CloseTick([14.0, 9.0, 7.0], "t6")
    ensures Crossover.SymbolRun(2, 3, s, Crossover.Out, ticks[6..]) == (Crossover.Out, [])
  {
    StepOnThree(s, Crossover.Out, 14.0, 9.0, 7.0, "t6");
    assert ticks[7..] == [];
    assert Crossover.SymbolRun(2, 3, s, Crossover.Out, ticks[7..]) == (Crossover.Out, []);
    CrossRunFrom(s, ticks, 6, Crossover.Out, [14.0, 9.0, 7.0], "t6", Crossover.Out, None, Crossover.Out, []);
  }

  /** t5, 'LONG': the short average falls below the long one
      (3 * 23 < 2 * 35), so EXIT. */
  lemma CrossRunFrom5(s: Symbol, ticks: seq<Crossover.Tick>)
    requires |ticks| == 7 && ticks[5] == CloseTick([12.0, 14.0, 9.0], "t5")
    requires Crossover.SymbolRun(2, 3, s, Crossover.Out, ticks[6..]) == (Crossover.Out, [])
    ensures Crossover.SymbolRun(2, 3, s, Crossover.Held, ticks[5..]) == (Crossover.Out, LateEmissions(s))
  {
    var exit := SignalEvent(StrategyId, s, "t5", Exit, Strength);
    StepOnThree(s, Crossover.Held, 12.0, 14.0, 9.0, "t5");
    CrossRunFrom(s, ticks, 5, Crossover.Held, [12.0, 14.0, 9.0], "t5", Crossover.Out, Some(exit), Crossover.Out, []);
    assert [Emission(s, exit)] + [] == LateEmissions(s);
  }

  /** t4, 'LONG': the short average is above the long one (3 * 26 > 2 * 36),
      which matters only when 'OUT'. */
  lemma CrossRunFrom4(s: Symbol, ticks: seq<Crossover.Tick>)
    requires |ticks| == 7 && ticks[4] == CloseTick([10.0, 12.0, 14.0], "t4")
    requires Crossover.SymbolRun(2, 3, s, Crossover.Held, ticks[5..]) == (Crossover.Out, LateEmissions(s))
    ensures Crossover.SymbolRun(2, 3, s, Crossover.Held, ticks[4..]) == (Crossover.Out, LateEmissions(s))
  {
    StepOnThree(s, Crossover.Held, 10.0, 12.0, 14.0, "t4");
    CrossRunFrom(s, ticks, 4, Crossover.Held, [10.0, 12.0, 14.0], "t4", Crossover.Held, None,
                 Crossover.Out, LateEmissions(s));
  }

  /** t3, 'OUT': the short average rises above the long one
      (3 * 22 > 2 * 32), so LONG. */
  lemma CrossRunFrom3(s: Symbol, ticks: seq<Crossover.Tick>)
    requires |ticks| == 7 && ticks[3] == CloseTick([10.0, 10.0, 12.0], "t3")
    requires Crossover.SymbolRun(2, 3, s, Crossover.Held, ticks[4..]) == (Crossover.Out, LateEmissions(s))
    ensures Crossover.SymbolRun(2, 3, s, Crossover.Out, ticks[3..]) == (Crossover.Out, CrossEmissions(s))
  {
    var long := SignalEvent(StrategyId, s, "t3", Long, Strength);
    StepOnThree(s, Crossover.Out, 10.0, 10.0, 12.0, "t3");
    CrossRunFrom(s, ticks, 3, Crossover.Out, [10.0, 10.0, 12.0], "t3", Crossover.Held, Some(long),
                 Crossover.Out, LateEmissions(s));
  }

  /** t2, 'OUT': the closes are flat (3 * 20 == 2 * 30), so nothing. */
  lemma CrossRunFrom2(s: Symbol, ticks: seq<Crossover.Tick>)
    requires |ticks| == 7 && ticks[2] == CloseTick([10.0, 10.0, 10.0], "t2")
    requires Crossover.SymbolRun(2, 3, s, Crossover.Out, ticks[3..]) == (Crossover.Out, CrossEmissions(s))
    ensures Crossover.SymbolRun(2, 3, s, Crossover.Out, ticks[2..]) == (Crossover.Out, CrossEmissions(s))
  {
    StepOnThree(s, Crossover.Out, 10.0, 10.0, 10.0, "t2");
    CrossRunFrom(s, ticks, 2, Crossover.Out, [10.0, 10.0, 10.0], "t2", Crossover.Out, None,
                 Crossover.Out, CrossEmissions(s));
  }

  /** t0 and t1, 'OUT': no more closes than the short window, so nothing. */
  lemma CrossRunFromStart(s: Symbol, ticks: seq<Crossover.Tick>)
    requires |ticks| == 7 && ticks[0] == CloseTick([10.0], "t0") && ticks[1] == CloseTick([10.0, 10.0], "t1")
    requires Crossover.SymbolRun(2, 3, s, Crossover.Out, ticks[2..]) == (Crossover.Out, CrossEmissions(s))
    ensures Crossover.SymbolRun(2, 3, s, Crossover.Out, ticks) == (Crossover.Out, CrossEmissions(s))
  {
    Crossover.QuietWhileShortWindowCoversData(2, 3, s, Crossover.Out, [10.0, 10.0], "t1");
    CrossRunFrom(s, ticks, 1, Crossover.Out, [10.0, 10.0], "t1", Crossover.Out, None,
                 Crossover.Out, CrossEmissions(s));
    Crossover.QuietWhileShortWindowCoversData(2, 3, s, Crossover.Out, [10.0], "t0");
    CrossRunFrom(s, ticks, 0, Crossover.Out, [10.0], "t0", Crossover.Out, None,
                 Crossover.Out, CrossEmissions(s));
    assert ticks[0..] == ticks;
  }

  /** The whole run: nothing before t3, LONG at t3, EXIT at t5, ending 'OUT'. */
  lemma CrossRun(s: Symbol, ticks: seq<Crossover.Tick>)
    requires CrossShape(ticks)
    ensures Crossover.SymbolRun(2, 3, s, Crossover.Out, ticks) == (Crossover.Out, CrossEmissions(s))
  {
    CrossRunFrom6(s, ticks);
    CrossRunFrom5(s, ticks);
    CrossRunFrom4(s, ticks);
    CrossRunFrom3(s, ticks);
    CrossRunFrom2(s, ticks);
    CrossRunFromStart(s, ticks);
  }

  /** Exactly one LONG, at the first tick where the short average exceeds the
      long one (t3: 11 > 32/3), and exactly one EXIT, at the first later tick
      where it falls below (t5: 23/2 < 35/3); the symbol ends 'OUT'. */
  lemma CrossoverScenario(s: Symbol, ticks: seq<Crossover.Tick>)
    requires CrossShape(ticks)
    ensures var r := Crossover.Run(Crossover.New([s], 2, 3), ticks);
            && Queued(r.1) == [SignalEvent(StrategyId, s, "t3", Long, Strength),
                               SignalEvent(StrategyId, s, "t5", Exit, Strength)]
            && r.0.bought[s] == Crossover.Out
  {
    var st := Crossover.New([s], 2, 3);
    Crossover.SingleSymbolRun(st, ticks, s);
    CrossRun(s, ticks);
  }

  /** A MARKET event during which the handler's latest bar for every symbol
      is a bar of `s` stamped `stamp`. */
  function BarTick(s: Symbol, stamp: Stamp): BuyAndHold.Tick
  {
    BuyAndHold.Tick(Market, BuyAndHold.BarFeed(_ => Some([BuyAndHold.Bar(s, stamp)])))
  }

  /** Three ticks whose latest bar is a bar of `s`, stamped t0, t1, t2. */
  ghost predicate BarShape(s: Symbol, ticks: seq<BuyAndHold.Tick>)
  {
    && |ticks| == 3
    && ticks[0] == BarTick(s, "t0")
    && ticks[1] == BarTick(s, "t1")
    && ticks[2] == BarTick(s, "t2")
  }

  /** Three bars: one LONG, at the first, and nothing at the other two. */
  lemma BuyAndHoldScenario(s: Symbol, ticks: seq<BuyAndHold.Tick>)
    requires BarShape(s, ticks)
    ensures var r := BuyAndHold.Run(BuyAndHold.New([s]), ticks);
            && Queued(r.1) == [SignalEvent(StrategyId, s, "t0", Long, Strength)]
            && r.0.bought[s]
  {
    var st := BuyAndHold.New([s]);
    BuyAndHold.SingleSymbolRun(st, ticks, s);
    var long := SignalEvent(StrategyId, s, "t0", Long, Strength);
    assert ticks[3..] == [];
    assert BuyAndHold.SymbolRun(s, true, ticks[3..]) == (true, []);
    BarRunFrom(s, ticks, 2, true, "t2", []);
    BarRunFrom(s, ticks, 1, true, "t1", []);
    BarRunFrom(s, ticks, 0, false, "t0", []);
    assert ticks[0..] == ticks;
    assert Queued([Emission(s, long)] + []) == [long];
  }

  /** The buy-and-hold run from tick `k`: the bar fires iff the flag is
      down, and the flag is up from then on. */
  lemma BarRunFrom(s: Symbol, ticks: seq<BuyAndHold.Tick>, k: nat, flag: bool, stamp: Stamp, tail: seq<Emission>)
    requires k < |ticks| && ticks[k] == BarTick(s, stamp)
    requires BuyAndHold.SymbolRun(s, true, ticks[k + 1..]) == (true, tail)
    ensures flag ==> BuyAndHold.SymbolRun(s, flag, ticks[k..]) == (true, tail)
    ensures !flag ==>
      BuyAndHold.SymbolRun(s, flag, ticks[k..]) == (true, [Emission(s, SignalEvent(StrategyId, s, stamp, Long, Strength))] + tail)
  {
    assert ticks[k..][0] == ticks[k];
    assert ticks[k..][1..] == ticks[k + 1..];
    assert Emit(s, None) + tail == tail;
  }

  /** There is no guard on the long window being full: with windows 2 and 5,
      a reply of only three rising closes already fires a LONG, because the
      short average (5/2) is above the average of all three (2). */
  lemma FiresBeforeLongWindowIsFull(s: Symbol, stamp: Stamp)
    ensures var w := [1.0, 2.0, 3.0];
            && |w| < 5
            && Crossover.SymbolStep(2, 5, s, Crossover.Out, Some(w), stamp)
               == (Crossover.Held, Some(SignalEvent(StrategyId, s, stamp, Long, Strength)))
  {
    var w := [1.0, 2.0, 3.0];
    assert PySuffix(w, 2) == [2.0, 3.0];
    assert PySuffix(w, 5) == w;
    assert Sum([3.0]) == 3.0;
    assert Sum([2.0, 3.0]) == 2.0 + Sum([3.0]);
    assert Sum(w) == 1.0 + Sum([2.0, 3.0]);
    ScaleIsProduct(5.0, 3);
    ScaleIsProduct(6.0, 2);
  }
}
