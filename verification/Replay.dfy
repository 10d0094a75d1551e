/** Per-device monotonic sequences (common/replay.py). */
module Replay {
  import opened Wrappers

  /** The highest sequence recorded for each device. */
  type LastSeen = map<string, int>

  function Last(m: LastSeen, device: string): int {
    if device in m then m[device] else 0
  }

  predicate Accepts(m: LastSeen, device: string, sequence: int) {
    sequence > Last(m, device)
  }

  function Record(m: LastSeen, device: string, sequence: int): LastSeen {
    if Accepts(m, device, sequence) then m[device := sequence] else m
  }

  class ReplayGuard {
    var lastSequence: LastSeen

    constructor ()
      ensures lastSequence == map[]
    {
      lastSequence := map[];
    }

    /** Atomic: `check_and_update` holds the guard's lock throughout. */
    method CheckAndUpdate(device: string, sequence: int) returns (accepted: bool)
      modifies this
      ensures accepted == Accepts(old(lastSequence), device, sequence)
      ensures lastSequence == Record(old(lastSequence), device, sequence)
      ensures !accepted ==> lastSequence == old(lastSequence)
    {
      var last := if device in lastSequence then lastSequence[device] else 0;
      if sequence <= last {
        return false;
      }
      lastSequence := lastSequence[device := sequence];
      return true;
    }
  }

  // ----- a guard's whole life -----

  datatype Arrival = Arrival(device: string, sequence: int)

  /** The guard's map after the arrivals, starting empty. */
  function Final(arrivals: seq<Arrival>): LastSeen {
    if arrivals == [] then map[]
    else
      var n := |arrivals| - 1;
      Record(Final(arrivals[..n]), arrivals[n].device, arrivals[n].sequence)
  }

  /** The arrivals the guard lets through, in order. */
  function Filter(arrivals: seq<Arrival>): seq<Arrival> {
    if arrivals == [] then []
    else
      var n := |arrivals| - 1;
      Filter(arrivals[..n])
      + if Accepts(Final(arrivals[..n]), arrivals[n].device, arrivals[n].sequence) then [arrivals[n]] else []
  }

  lemma FilterSnoc(arrivals: seq<Arrival>, a: Arrival)
    ensures Final(arrivals + [a]) == Record(Final(arrivals), a.device, a.sequence)
    ensures Filter(arrivals + [a])
         == Filter(arrivals) + if Accepts(Final(arrivals), a.device, a.sequence) then [a] else []
  {
    assert (arrivals + [a])[..|arrivals|] == arrivals;
  }

  /** The map holds the maximum of 0 and every sequence ever presented for the device. */
  ghost predicate IsHighest(arrivals: seq<Arrival>, device: string, high: int) {
    && high >= 0
    && (forall i | 0 <= i < |arrivals| && arrivals[i].device == device :: arrivals[i].sequence <= high)
    && (high == 0 || Arrival(device, high) in arrivals)
  }

  lemma {:induction false} LastIsHighest(arrivals: seq<Arrival>, device: string)
    ensures IsHighest(arrivals, device, Last(Final(arrivals), device))
  {
    if arrivals != [] {
      LastIsHighest(arrivals[..|arrivals| - 1], device);
    }
  }

  /** A record high: positive, and above every earlier sequence of its device. */
  ghost predicate IsRecord(arrivals: seq<Arrival>, i: nat)
    requires i < |arrivals|
  {
    && arrivals[i].sequence > 0
    && forall j | 0 <= j < i && arrivals[j].device == arrivals[i].device :: arrivals[j].sequence < arrivals[i].sequence
  }

  /** Reference definition: the record highs, in order, without any guard state. */
  ghost function RecordHighs(arrivals: seq<Arrival>, n: nat): seq<Arrival>
    requires n <= |arrivals|
  {
    if n == 0 then []
    else RecordHighs(arrivals, n - 1) + if IsRecord(arrivals, n - 1) then [arrivals[n - 1]] else []
  }

  lemma AcceptedIffRecord(arrivals: seq<Arrival>, i: nat)
    requires i < |arrivals|
    ensures Accepts(Final(arrivals[..i]), arrivals[i].device, arrivals[i].sequence) <==> IsRecord(arrivals, i)
  {
    var device := arrivals[i].device;
    var high := Last(Final(arrivals[..i]), device);
    LastIsHighest(arrivals[..i], device);
    if high != 0 {
      var j :| 0 <= j < i && arrivals[..i][j] == Arrival(device, high);
      assert arrivals[j].sequence == high;
    }
    assert forall j | 0 <= j < i :: arrivals[..i][j] == arrivals[j];
  }

  lemma {:induction false} FilterIsRecordHighsUpTo(arrivals: seq<Arrival>, n: nat)
    requires n <= |arrivals|
    ensures Filter(arrivals[..n]) == RecordHighs(arrivals, n)
  {
    if n > 0 {
      FilterIsRecordHighsUpTo(arrivals, n - 1);
      AcceptedIffRecord(arrivals, n - 1);
      assert arrivals[..n][..n - 1] == arrivals[..n - 1];
    }
  }

  /** The guard accepts exactly the running record highs. */
  lemma FilterIsRecordHighs(arrivals: seq<Arrival>)
    ensures Filter(arrivals) == RecordHighs(arrivals, |arrivals|)
  {
    FilterIsRecordHighsUpTo(arrivals, |arrivals|);
    assert arrivals[..|arrivals|] == arrivals;
  }

  function Project(arrivals: seq<Arrival>, device: string): seq<Arrival> {
    if arrivals == [] then []
    else
      var n := |arrivals| - 1;
      Project(arrivals[..n], device) + if arrivals[n].device == device then [arrivals[n]] else []
  }

  lemma ProjectSnoc(arrivals: seq<Arrival>, a: Arrival, device: string)
    ensures Project(arrivals + [a], device)
         == Project(arrivals, device) + if a.device == device then [a] else []
  {
    assert (arrivals + [a])[..|arrivals|] == arrivals;
  }

  lemma FilterCommutesSnoc(front: seq<Arrival>, a: Arrival, device: string)
    requires Project(Filter(front), device) == Filter(Project(front, device))
    requires Last(Final(front), device) == Last(Final(Project(front, device)), device)
    ensures Project(Filter(front + [a]), device) == Filter(Project(front + [a], device))
    ensures Last(Final(front + [a]), device) == Last(Final(Project(front + [a], device)), device)
  {
    hide Filter, Final, Project;
    FilterSnoc(front, a);
    ProjectSnoc(front, a, device);
    ProjectSnoc(Filter(front), a, device);
    FilterSnoc(Project(front, device), a);
    assert Filter(front) + [] == Filter(front) && Project(front, device) + [] == Project(front, device);
    assert Project(Filter(front), device) + [] == Project(Filter(front), device);
  }

  /** Devices do not interfere: filtering commutes with projection to one device. */
  lemma {:induction false} FilterCommutes(arrivals: seq<Arrival>, device: string)
    ensures Project(Filter(arrivals), device) == Filter(Project(arrivals, device))
    ensures Last(Final(arrivals), device) == Last(Final(Project(arrivals, device)), device)
  {
    if arrivals != [] {
      hide Filter, Final, Project;
      var n := |arrivals| - 1;
      assert arrivals == arrivals[..n] + [arrivals[n]];
      FilterCommutes(arrivals[..n], device);
      FilterCommutesSnoc(arrivals[..n], arrivals[n], device);
    }
  }

  /** Whatever passed is bounded by the map, and per device strictly increasing. */
  lemma {:induction false} FilterIncreases(arrivals: seq<Arrival>)
    ensures forall i | 0 <= i < |Filter(arrivals)| ::
              0 < Filter(arrivals)[i].sequence <= Last(Final(arrivals), Filter(arrivals)[i].device)
    ensures forall i, j | 0 <= i < j < |Filter(arrivals)| && Filter(arrivals)[i].device == Filter(arrivals)[j].device ::
              Filter(arrivals)[i].sequence < Filter(arrivals)[j].sequence
  {
    if arrivals != [] {
      var n := |arrivals| - 1;
      FilterIncreases(arrivals[..n]);
      LastIsHighest(arrivals[..n], arrivals[n].device);
    }
  }

  lemma {:induction false} OnceInIncreasing(s: seq<Arrival>, a: Arrival)
    requires a in s
    requires forall i, j | 0 <= i < j < |s| && s[i].device == s[j].device :: s[i].sequence < s[j].sequence
    ensures multiset(s)[a] == 1
  {
    var n := |s| - 1;
    assert s == s[..n] + [s[n]];
    if s[n] == a {
      assert a !in s[..n];
    } else {
      OnceInIncreasing(s[..n], a);
    }
  }

  lemma {:induction false} HighestPasses(arrivals: seq<Arrival>, a: Arrival)
    requires a in arrivals && a.sequence > 0
    requires forall i | 0 <= i < |arrivals| && arrivals[i].device == a.device :: arrivals[i].sequence <= a.sequence
    ensures a in Filter(arrivals)
  {
    var n := |arrivals| - 1;
    if a in arrivals[..n] {
      HighestPasses(arrivals[..n], a);
    } else {
      assert arrivals[n] == a;
      LastIsHighest(arrivals[..n], a.device);
    }
  }

  /** In any arrival order, the largest positive sequence presented for a device passes exactly
      once, and nothing passes twice. */
  lemma HighestPassesOnce(arrivals: seq<Arrival>, a: Arrival)
    requires a in arrivals && a.sequence > 0
    ensures multiset(Filter(arrivals))[a] <= 1
    ensures IsHighest(arrivals, a.device, a.sequence) ==> multiset(Filter(arrivals))[a] == 1
  {
    FilterIncreases(arrivals);
    if IsHighest(arrivals, a.device, a.sequence) {
      HighestPasses(arrivals, a);
    }
    if a in Filter(arrivals) {
      OnceInIncreasing(Filter(arrivals), a);
    }
  }

  // ----- from where a guard stands -----

  /** Above what the guard has and above every earlier sequence of its device. A message that brings
      no sequence to the guard presents None. */
  ghost predicate IsNew(guard: LastSeen, presented: seq<Option<Arrival>>, i: nat)
    requires i < |presented|
  {
    && presented[i].Some?
    && var a := presented[i].value;
       && a.sequence > Last(guard, a.device)
       && forall j | 0 <= j < i && presented[j].Some? && presented[j].value.device == a.device ::
            presented[j].value.sequence < a.sequence
  }

  /** Which of the first n are new, in order. */
  ghost function NewOnes(guard: LastSeen, presented: seq<Option<Arrival>>, n: nat): (indices: seq<nat>)
    requires n <= |presented|
    ensures |indices| <= n
    ensures forall i | 0 <= i < |indices| :: indices[i] < n && IsNew(guard, presented, indices[i])
  {
    if n == 0 then []
    else NewOnes(guard, presented, n - 1) + if IsNew(guard, presented, n - 1) then [n - 1] else []
  }

  /** A guard that saw the first n has, for each device, the highest of them and of what was there. */
  ghost predicate Raised(guard: LastSeen, after: LastSeen, presented: seq<Option<Arrival>>, n: nat)
    requires n <= |presented|
  {
    forall device :: RaisedTo(guard, presented, n, device, Last(after, device))
  }

  ghost predicate RaisedTo(guard: LastSeen, presented: seq<Option<Arrival>>, n: nat, device: string, high: int)
    requires n <= |presented|
  {
    && high >= Last(guard, device)
    && (forall i | 0 <= i < n && presented[i].Some? && presented[i].value.device == device ::
          presented[i].value.sequence <= high)
    && (high == Last(guard, device) || exists i | 0 <= i < n :: presented[i] == Some(Arrival(device, high)))
  }

  lemma NothingRaised(guard: LastSeen, presented: seq<Option<Arrival>>)
    ensures Raised(guard, guard, presented, 0)
  {
  }

  /** The guard accepts exactly what is new. */
  lemma AcceptsIffNew(guard: LastSeen, after: LastSeen, presented: seq<Option<Arrival>>, n: nat)
    requires n < |presented| && Raised(guard, after, presented, n) && presented[n].Some?
    ensures Accepts(after, presented[n].value.device, presented[n].value.sequence) <==> IsNew(guard, presented, n)
  {
    var a := presented[n].value;
    assert RaisedTo(guard, presented, n, a.device, Last(after, a.device));
  }

  lemma RecordRaises(guard: LastSeen, after: LastSeen, presented: seq<Option<Arrival>>, n: nat)
    requires n < |presented| && Raised(guard, after, presented, n) && presented[n].Some?
    ensures Raised(guard, Record(after, presented[n].value.device, presented[n].value.sequence), presented, n + 1)
  {
    hide RaisedTo;
    var a := presented[n].value;
    var recorded := Record(after, a.device, a.sequence);
    forall device
      ensures RaisedTo(guard, presented, n + 1, device, Last(recorded, device))
    {
      assert RaisedTo(guard, presented, n, device, Last(after, device));
      OneMore(guard, presented, n, device, Last(after, device));
    }
  }

  lemma OneMore(guard: LastSeen, presented: seq<Option<Arrival>>, n: nat, device: string, high: int)
    requires n < |presented| && RaisedTo(guard, presented, n, device, high)
    ensures presented[n].Some? && presented[n].value.device == device && presented[n].value.sequence > high ==>
              RaisedTo(guard, presented, n + 1, device, presented[n].value.sequence)
    ensures presented[n].None? || presented[n].value.device != device || presented[n].value.sequence <= high ==>
              RaisedTo(guard, presented, n + 1, device, high)
  {
    if presented[n].Some? && presented[n].value.device == device && presented[n].value.sequence > high {
      assert presented[n] == Some(Arrival(device, presented[n].value.sequence));
    } else if high != Last(guard, device) {
      var i :| 0 <= i < n && presented[i] == Some(Arrival(device, high));
      assert 0 <= i < n + 1;
    }
  }

  lemma NoneRaisesNothing(guard: LastSeen, after: LastSeen, presented: seq<Option<Arrival>>, n: nat)
    requires n < |presented| && Raised(guard, after, presented, n) && presented[n].None?
    ensures Raised(guard, after, presented, n + 1)
  {
    hide RaisedTo;
    forall device
      ensures RaisedTo(guard, presented, n + 1, device, Last(after, device))
    {
      assert RaisedTo(guard, presented, n, device, Last(after, device));
      OneMore(guard, presented, n, device, Last(after, device));
    }
  }

  function Somes(arrivals: seq<Arrival>): seq<Option<Arrival>> {
    seq(|arrivals|, i requires 0 <= i < |arrivals| => Some(arrivals[i]))
  }

  ghost function At(arrivals: seq<Arrival>, indices: seq<nat>): seq<Arrival>
    requires forall i | 0 <= i < |indices| :: indices[i] < |arrivals|
  {
    seq(|indices|, i requires 0 <= i < |indices| => arrivals[indices[i]])
  }

  /** For a guard with a history the new ones are what filtering the longer history adds. */
  lemma {:induction false} NewOnesAreFiltered(history: seq<Arrival>, arrivals: seq<Arrival>, n: nat)
    requires n <= |arrivals|
    ensures Filter(history + arrivals[..n])
         == Filter(history) + At(arrivals, NewOnes(Final(history), Somes(arrivals), n))
    ensures Raised(Final(history), Final(history + arrivals[..n]), Somes(arrivals), n)
  {
    hide Filter, Final, Raised;
    var guard, presented := Final(history), Somes(arrivals);
    if n == 0 {
      NothingRaised(guard, presented);
      assert history + arrivals[..0] == history && Filter(history) + [] == Filter(history);
    } else {
      NewOnesAreFiltered(history, arrivals, n - 1);
      var seen, a := history + arrivals[..n - 1], arrivals[n - 1];
      assert history + arrivals[..n] == seen + [a];
      FilterSnoc(seen, a);
      AcceptsIffNew(guard, Final(seen), presented, n - 1);
      RecordRaises(guard, Final(seen), presented, n - 1);
      var before := NewOnes(guard, presented, n - 1);
      assert At(arrivals, before + [n - 1]) == At(arrivals, before) + [a];
      assert Filter(seen) + [] == Filter(seen);
    }
  }
}
