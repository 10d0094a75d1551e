/** The bounded reading store (cloud/store.py). */
module Store {
  import opened Protocol

  /** The last `n` elements, or all of them when there are fewer. */
  function LastN<T>(s: seq<T>, n: nat): (r: seq<T>)
    ensures |r| == if |s| < n then |s| else n
    ensures r == s[|s| - |r|..]
  {
    if |s| <= n then s else s[|s| - n..]
  }

  /** What the program's one store is created with. */
  const MAX_READINGS := 1000

  /** Appending to a deque of bounded length. */
  function Pushed<T>(readings: seq<T>, reading: T, maxReadings: nat): seq<T> {
    if |readings| < maxReadings then readings + [reading] else (readings + [reading])[1..]
  }

  /** Pushing onto the last `n` elements of a history gives the last `n` elements of the longer one. */
  lemma PushedIsLastN<T>(history: seq<T>, x: T, n: nat)
    ensures Pushed(LastN(history, n), x, n) == LastN(history + [x], n)
  {
  }

  lemma LastOfLast<T>(history: seq<T>, n: nat, k: nat)
    ensures var held := LastN(history, n);
            (if |held| < k then held else held[|held| - k..]) == LastN(history, if n < k then n else k)
  {
  }

  /** A deque of bounded length; `log` is everything ever added. */
  class ReadingStore {
    const maxReadings: nat
    var readings: seq<Message>
    ghost var log: seq<Message>

    ghost predicate Valid()
      reads this
    {
      readings == LastN(log, maxReadings)
    }

    constructor (maxReadings: nat)
      ensures Valid() && log == [] && this.maxReadings == maxReadings
    {
      this.maxReadings := maxReadings;
      readings := [];
      log := [];
    }

    method Add(reading: Message)
      requires Valid()
      modifies this
      ensures Valid() && log == old(log) + [reading]
      ensures readings == Pushed(old(readings), reading, maxReadings)
    {
      PushedIsLastN(log, reading, maxReadings);
      readings := readings + [reading];
      if |readings| > maxReadings {
        readings := readings[1..];
      }
      log := log + [reading];
    }

    /** `items[-n:]`, which for n = 0 is the whole list. */
    method Recent(n: nat) returns (items: seq<Message>)
      requires Valid()
      ensures items == LastN(log, if n == 0 || maxReadings < n then maxReadings else n)
    {
      hide LastN;
      LastOfLast(log, maxReadings, n);
      if n == 0 || |readings| < n {
        items := readings;
      } else {
        items := readings[|readings| - n..];
      }
    }

    method CountReadings() returns (n: nat)
      requires Valid()
      ensures n == if |log| < maxReadings then |log| else maxReadings
    {
      n := |readings|;
    }
  }
}
