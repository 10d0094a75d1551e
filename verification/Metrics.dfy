/** Counters (common/metrics.py). */
module Accounting {

  datatype Counter =
    | MessagesReceived
    | MessagesProcessed
    | MessagesForwarded
    | MessagesRejected
    | Errors
    | FallbackActivations
    | LegacyDevicesDetected
    | MlkemSessionsEstablished

  type Counters = map<Counter, nat>

  function Count(counters: Counters, c: Counter): nat {
    if c in counters then counters[c] else 0
  }

  function Bump(counters: Counters, c: Counter): (r: Counters)
    ensures forall x :: Count(r, x) == Count(counters, x) + if x == c then 1 else 0
  {
    counters[c := Count(counters, c) + 1]
  }

  function One(b: bool): nat { if b then 1 else 0 }

  /** How many elements of a history satisfy `p`. */
  function CountIf<T>(history: seq<T>, p: T -> bool): nat {
    if history == [] then 0
    else CountIf(history[..|history| - 1], p) + One(p(history[|history| - 1]))
  }

  lemma CountSnoc<T>(history: seq<T>, x: T, p: T -> bool)
    ensures CountIf(history + [x], p) == CountIf(history, p) + One(p(x))
  {
    assert (history + [x])[..|history|] == history;
  }

  class Metrics {
    var counters: Counters

    constructor ()
      ensures counters == map[]
    {
      counters := map[];
    }

    method Inc(c: Counter)
      modifies this
      ensures counters == Bump(old(counters), c)
    {
      counters := counters[c := (if c in counters then counters[c] else 0) + 1];
    }
  }
}
