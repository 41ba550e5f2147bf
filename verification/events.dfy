/** Vocabulary shared by both example strategies: the event kinds a strategy
    is handed, the signal records it puts on the event queue, and the
    per-symbol view of what was put there. */
module Events {

  datatype Option<+T> = None | Some(value: T)

  /** A ticker symbol, as listed in the data handler's `symbol_list`. */
  type Symbol = string

  /** The datetime of a bar. The strategies only copy it into signals, so it
      is kept opaque. */
  type Stamp = string

  /** The `type` tag of an event taken off the queue. */
  datatype EventType = Market | Signal | Order | Fill

  /** The direction of a signal. Neither example strategy emits `Short`. */
  datatype Direction = Long | Short | Exit

  /** `SignalEvent(strategy_id, symbol, datetime, signal_type, strength)`. */
  datatype SignalEvent = SignalEvent(
    strategyId: int,
    symbol: Symbol,
    datetime: Stamp,
    direction: Direction,
    strength: real)

  /** A signal put on the queue, together with the `symbol_list` entry whose
      loop iteration put it there. */
  datatype Emission = Emission(origin: Symbol, signal: SignalEvent)

  /** Every symbol of `syms` has an entry in `m`, so no lookup can fail. */
  predicate Keyed<V>(syms: seq<Symbol>, m: map<Symbol, V>)
  {
    forall i :: 0 <= i < |syms| ==> syms[i] in m
  }

  /** The signals as the event queue receives them, in order. */
  function Queued(ems: seq<Emission>): (q: seq<SignalEvent>)
    ensures |q| == |ems|
    ensures forall i :: 0 <= i < |q| ==> q[i] == ems[i].signal
  {
    if ems == [] then [] else [ems[0].signal] + Queued(ems[1..])
  }

  /** Zero or one emission, from an optional signal. */
  function Emit(origin: Symbol, sig: Option<SignalEvent>): seq<Emission>
  {
    match sig
    case None => []
    case Some(x) => [Emission(origin, x)]
  }

  /** The strategy id and strength every signal of both strategies carries. */
  const StrategyId: int := 1
  const Strength: real := 1.0

  /** The emissions made by the iterations for `s`, in order. */
  function EmissionsFor(s: Symbol, ems: seq<Emission>): (r: seq<Emission>)
    ensures |r| <= |ems|
  {
    if ems == [] then []
    else (if ems[0].origin == s then [ems[0]] else []) + EmissionsFor(s, ems[1..])
  }

  lemma {:induction false} EmissionsForAppend(s: Symbol, a: seq<Emission>, b: seq<Emission>)
    ensures EmissionsFor(s, a + b) == EmissionsFor(s, a) + EmissionsFor(s, b)
    decreases |a|
  {
    if a == [] {
      assert a + b == b;
    } else {
      var head := if a[0].origin == s then [a[0]] else [];
      assert (a + b)[0] == a[0];
      assert (a + b)[1..] == a[1..] + b;
      EmissionsForAppend(s, a[1..], b);
      calc {
        EmissionsFor(s, a + b);
        head + EmissionsFor(s, a[1..] + b);
        head + (EmissionsFor(s, a[1..]) + EmissionsFor(s, b));
        (head + EmissionsFor(s, a[1..])) + EmissionsFor(s, b);
        EmissionsFor(s, a) + EmissionsFor(s, b);
      }
    }
  }

  /** What one iteration for `origin` contributes to `EmissionsFor(s, _)`. */
  lemma EmissionsForEmit(s: Symbol, origin: Symbol, sig: Option<SignalEvent>)
    ensures EmissionsFor(s, Emit(origin, sig)) == if origin == s then Emit(origin, sig) else []
  {
  }

  /** The loop symbols whose iterations emitted, in emission order. */
  function Origins(ems: seq<Emission>): (r: seq<Symbol>)
    ensures |r| == |ems|
    ensures forall i :: 0 <= i < |r| ==> r[i] == ems[i].origin
  {
    if ems == [] then [] else [ems[0].origin] + Origins(ems[1..])
  }

  /** No symbol is listed twice. */
  predicate Distinct(syms: seq<Symbol>)
  {
    forall i, j :: 0 <= i < j < |syms| ==> syms[i] != syms[j]
  }

  /** The queue of a walk in which the iteration for each listed symbol `s`
      puts `fire(s)` on the queue, independently of the others. */
  function EachOnce(syms: seq<Symbol>, fire: Symbol -> Option<SignalEvent>): (r: seq<Emission>)
    ensures |r| <= |syms|
  {
    if syms == [] then [] else Emit(syms[0], fire(syms[0])) + EachOnce(syms[1..], fire)
  }

  /** `EachOnce` only looks at what `fire` gives the listed symbols. */
  lemma {:induction false} EachOnceAgrees(syms: seq<Symbol>, f: Symbol -> Option<SignalEvent>,
                                          g: Symbol -> Option<SignalEvent>)
    requires forall i :: 0 <= i < |syms| ==> f(syms[i]) == g(syms[i])
    ensures EachOnce(syms, f) == EachOnce(syms, g)
    decreases |syms|
  {
    if syms != [] {
      assert forall i :: 0 <= i < |syms[1..]| ==> syms[1..][i] == syms[i + 1];
      EachOnceAgrees(syms[1..], f, g);
    }
  }

  /** The tail of a list without duplicates has none, and does not hold its
      head. */
  lemma DistinctTail(syms: seq<Symbol>)
    requires syms != [] && Distinct(syms)
    ensures Distinct(syms[1..])
    ensures forall i :: 0 <= i < |syms[1..]| ==> syms[1..][i] != syms[0]
  {
    forall i, j | 0 <= i < j < |syms[1..]| ensures syms[1..][i] != syms[1..][j] {
      assert syms[1..][i] == syms[i + 1] && syms[1..][j] == syms[j + 1];
    }
    forall i | 0 <= i < |syms[1..]| ensures syms[1..][i] != syms[0] {
      assert syms[1..][i] == syms[i + 1];
    }
  }

  /** Every emission came from an iteration for a symbol of `syms`. */
  predicate FromListed(ems: seq<Emission>, syms: seq<Symbol>)
  {
    forall i :: 0 <= i < |ems| ==> ems[i].origin in syms
  }

  lemma FromListedAppend(a: seq<Emission>, b: seq<Emission>, syms: seq<Symbol>)
    requires FromListed(a, syms) && FromListed(b, syms)
    ensures FromListed(a + b, syms)
  {
    forall i | 0 <= i < |a + b| ensures (a + b)[i].origin in syms {
      if i < |a| {
        assert (a + b)[i] == a[i];
      } else {
        assert (a + b)[i] == b[i - |a|];
      }
    }
  }

  /** `a` can be obtained from `b` by deleting elements. */
  predicate IsSubsequence<T(==)>(a: seq<T>, b: seq<T>)
    decreases |b|
  {
    || a == []
    || (&& b != []
        && ((a[0] == b[0] && IsSubsequence(a[1..], b[1..])) || IsSubsequence(a, b[1..])))
  }

  /** Skipping or keeping the head of `b` preserves being a subsequence. */
  lemma SubsequenceCons<T>(a: seq<T>, b: seq<T>)
    requires b != [] && IsSubsequence(a, b[1..])
    ensures IsSubsequence(a, b)
    ensures IsSubsequence([b[0]] + a, b)
  {
    assert ([b[0]] + a)[1..] == a;
  }

  lemma {:induction false} EmissionsForAbsent(s: Symbol, ems: seq<Emission>)
    requires forall i :: 0 <= i < |ems| ==> ems[i].origin != s
    ensures EmissionsFor(s, ems) == []
    decreases |ems|
  {
    if ems != [] {
      EmissionsForAbsent(s, ems[1..]);
    }
  }

  /** A symbol outside `syms` gets nothing from emissions that all came from
      iterations for symbols of `syms`. */
  lemma EmissionsForUnlisted(s: Symbol, ems: seq<Emission>, syms: seq<Symbol>)
    requires FromListed(ems, syms) && s !in syms
    ensures EmissionsFor(s, ems) == []
  {
    assert forall i :: 0 <= i < |ems| ==> ems[i].origin != s;
    EmissionsForAbsent(s, ems);
  }

  /** Every element of a subsequence is an element of the sequence. */
  lemma {:induction false} SubsequenceElements<T>(a: seq<T>, b: seq<T>)
    requires IsSubsequence(a, b)
    ensures forall i :: 0 <= i < |a| ==> a[i] in b
    decreases |b|
  {
    if a != [] {
      if a[0] == b[0] && IsSubsequence(a[1..], b[1..]) {
        SubsequenceElements(a[1..], b[1..]);
        forall i | 0 <= i < |a| ensures a[i] in b {
          if i > 0 {
            assert a[i] == a[1..][i - 1];
          }
        }
      } else {
        SubsequenceElements(a, b[1..]);
      }
    }
  }

  lemma {:induction false} EmissionsForAll(s: Symbol, ems: seq<Emission>)
    requires FromListed(ems, [s])
    ensures EmissionsFor(s, ems) == ems
    decreases |ems|
  {
    if ems != [] {
      assert ems[0].origin in [s];
      assert FromListed(ems[1..], [s]) by {
        forall i | 0 <= i < |ems[1..]| ensures ems[1..][i].origin in [s] {
          assert ems[1..][i] == ems[i + 1];
        }
      }
      EmissionsForAll(s, ems[1..]);
      assert [ems[0]] + ems[1..] == ems;
    }
  }
}
