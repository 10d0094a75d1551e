/** The interleaved cloud channel refined by the channel's own code: a reconnect loop that runs alone,
    and a send that runs alone, are runs of the interleaved machine, field access by field access, and
    do to its fields exactly what `_reconnect_loop` and `send_reading` do to the channel. */
module ChannelAlone {
  import opened Wrappers
  import opened Text
  import opened Protocol
  import opened Crypto
  import opened Accounting
  import opened Channel
  import Gateway
  import R = ChannelRuns

  /** The machine's fields are the channel's; a socket is numbered by its attempt. */
  ghost predicate Related(s: R.State, id: Identity, v: View) {
    && s.auto == id.auto && s.mode == v.mode && s.reconnecting == v.reconnecting && s.spawned == v.spawned + 1
    && s.sock == v.sock && |s.attempts| == v.dialled
    && (match s.key
        case None => v.sessionKey.None?
        case Some(a) => a < |s.attempts| && v.sessionKey == Some(s.attempts[a].key))
    && (match s.id
        case None => v.sessionId.None?
        case Some(a) => a < |s.attempts| && v.sessionId == Some(s.attempts[a].sessionId))
  }

  lemma {:induction false} Joined(s: R.State, one: seq<R.Step>, other: seq<R.Step>)
    requires R.Valid(s, one) && R.Valid(R.Exec(s, one), other)
    ensures R.Valid(s, one + other) && R.Exec(s, one + other) == R.Exec(R.Exec(s, one), other)
    decreases |one|
  {
    hide R.Apply, R.Enabled;
    if one == [] {
      assert one + other == other;
    } else {
      assert (one + other)[1..] == one[1..] + other;
      Joined(R.Apply(s, one[0]), one[1..], other);
    }
  }

  /** One more step of a run. */
  lemma Push(s: R.State, steps: seq<R.Step>, step: R.Step) returns (steps': seq<R.Step>)
    requires R.Valid(s, steps) && R.Enabled(R.Exec(s, steps), step)
    ensures R.Valid(s, steps') && R.Exec(s, steps') == R.Apply(R.Exec(s, steps), step)
  {
    hide R.Apply, R.Enabled;
    assert R.Valid(R.Exec(s, steps), [step]) && R.Exec(R.Exec(s, steps), [step]) == R.Apply(R.Exec(s, steps), step);
    Joined(s, steps, [step]);
    steps' := steps + [step];
  }

  // ----- establishing -----

  /** How the machine sees a phase of an attempt end. */
  function IoOf<T>(r: Result<T>): R.Io {
    match r
    case Ok(_) => R.Good
    case Err(e) => if e.ConnectionClosed? then R.Closed else R.Failed
  }

  /** Loop l is the one that establishes, and stands here. */
  predicate At(s: R.State, l: nat, pc: R.Loop) { s.holder == R.Looping(l) && R.LoopAt(s.loops, l) == pc }

  /** The attempt takes an id and a key that no earlier one had. */
  predicate Fresh(attempts: seq<R.Attempt>, dial: Dial) {
    && dial.sessionId != ""
    && forall i | 0 <= i < |attempts| ::
         attempts[i].sessionId != dial.sessionId && attempts[i].key != DeriveSessionKey(dial.secret)
  }

  /** What the loop's step makes of the machine. */
  function Next(s: R.State, l: nat, io: R.Io, dial: Dial): R.State {
    R.AdvanceLoop(s, l, io, dial.sessionId, DeriveSessionKey(dial.secret))
  }

  lemma Begin(s: R.State)
    ensures R.Valid(s, []) && R.Exec(s, []) == s
  {
  }

  lemma Advance(s: R.State, steps: seq<R.Step>, now: R.State, l: nat, io: R.Io, dial: Dial)
    returns (steps': seq<R.Step>)
    requires R.Valid(s, steps) && R.Exec(s, steps) == now && now.holder == R.Looping(l)
    requires !R.LoopAt(now.loops, l).Finished?
    requires R.LoopAt(now.loops, l).Opening? && io == R.Good ==> Fresh(now.attempts, dial)
    ensures R.Valid(s, steps') && R.Exec(s, steps') == Next(now, l, io, dial)
  {
    hide R.AdvanceLoop, R.Valid, R.Exec;
    steps' := Push(s, steps, R.Establish(l, io, dial.sessionId, DeriveSessionKey(dial.secret)));
  }

  // one step of the loop at a time

  lemma ConnectingStep(s: R.State, l: nat, id: Identity, v: View, dial: Dial)
    requires At(s, l, R.Connecting) && Related(s, id, v)
    ensures var s' := Next(s, l, R.Good, dial);
            && At(s', l, R.Opening) && Related(s', id, v.(mode := CONNECTING))
            && s'.attempts == s.attempts && s'.abandoned == s.abandoned
  {
  }

  lemma OpeningStep(s: R.State, l: nat, id: Identity, v: View, dial: Dial, io: R.Io)
    requires At(s, l, R.Opening) && Related(s, id, v)
    ensures var s' := Next(s, l, io, dial);
            && s'.abandoned == s.abandoned
            && if io == R.Good
               then At(s', l, R.SetEstablishing(v.dialled)) && Related(s', id, v.(dialled := v.dialled + 1))
                    && s'.attempts == s.attempts + [R.Attempt(dial.sessionId, DeriveSessionKey(dial.secret), false)]
               else At(s', l, R.SetFailed) && Related(s', id, v) && s'.attempts == s.attempts
  {
  }

  lemma EstablishingStep(s: R.State, l: nat, id: Identity, v: View, dial: Dial, a: nat)
    requires At(s, l, R.SetEstablishing(a)) && Related(s, id, v)
    ensures var s' := Next(s, l, R.Good, dial);
            && At(s', l, R.Handshaking(a)) && Related(s', id, v.(mode := ESTABLISHING))
            && s'.attempts == s.attempts && s'.abandoned == s.abandoned
  {
  }

  lemma HandshakingStep(s: R.State, l: nat, id: Identity, v: View, dial: Dial, a: nat, io: R.Io)
    requires At(s, l, R.Handshaking(a)) && Related(s, id, v) && a < |s.attempts|
    ensures var s' := Next(s, l, io, dial);
            && At(s', l, match io case Good => R.AwaitReply(a) case Closed => R.Abandoned case Failed => R.SetFailed)
            && Related(s', id, v) && SameIds(s.attempts, s'.attempts)
            && (s'.abandoned <==> s.abandoned || io == R.Closed)
  {
  }

  lemma ReplyStep(s: R.State, l: nat, id: Identity, v: View, dial: Dial, a: nat, io: R.Io)
    requires At(s, l, R.AwaitReply(a)) && Related(s, id, v)
    ensures var s' := Next(s, l, io, dial);
            && At(s', l, match io case Good => R.StoreKey(a) case Closed => R.Abandoned case Failed => R.SetFailed)
            && Related(s', id, v) && s'.attempts == s.attempts
            && (s'.abandoned <==> s.abandoned || io == R.Closed)
  {
  }

  lemma StoreKeyStep(s: R.State, l: nat, id: Identity, v: View, dial: Dial, a: nat)
    requires At(s, l, R.StoreKey(a)) && Related(s, id, v) && a < |s.attempts|
    ensures var s' := Next(s, l, R.Good, dial);
            && At(s', l, R.StoreId(a)) && Related(s', id, v.(sessionKey := Some(s.attempts[a].key)))
            && s'.attempts == s.attempts && s'.abandoned == s.abandoned
  {
  }

  lemma StoreIdStep(s: R.State, l: nat, id: Identity, v: View, dial: Dial, a: nat)
    requires At(s, l, R.StoreId(a)) && Related(s, id, v) && a < |s.attempts|
    ensures var s' := Next(s, l, R.Good, dial);
            && At(s', l, R.StoreSock(a)) && Related(s', id, v.(sessionId := Some(s.attempts[a].sessionId)))
            && s'.attempts == s.attempts && s'.abandoned == s.abandoned
  {
  }

  lemma StoreSockStep(s: R.State, l: nat, id: Identity, v: View, dial: Dial, a: nat)
    requires At(s, l, R.StoreSock(a)) && Related(s, id, v)
    ensures var s' := Next(s, l, R.Good, dial);
            && At(s', l, R.SetEstablished(a)) && Related(s', id, v.(sock := Some(a)))
            && s'.attempts == s.attempts && s'.abandoned == s.abandoned
  {
  }

  lemma FailedSteps(s: R.State, l: nat, id: Identity, v: View, dial: Dial)
    requires At(s, l, R.SetFailed) && Related(s, id, v)
    ensures var s1 := Next(s, l, R.Good, dial);
            var s2 := Next(s1, l, R.Good, dial);
            && At(s1, l, R.SetDisconnected) && At(s2, l, R.Connecting) && Related(s1, id, v.(mode := FAILED))
            && Related(s2, id, v.(mode := DISCONNECTED)) && s2.attempts == s.attempts && s2.abandoned == s.abandoned
  {
  }

  lemma EstablishedSteps(s: R.State, l: nat, id: Identity, v: View, dial: Dial, a: nat)
    requires At(s, l, R.SetEstablished(a)) && Related(s, id, v)
    ensures var s1 := Next(s, l, R.Good, dial);
            var s2 := Next(s1, l, R.Good, dial);
            && At(s1, l, R.ClearFlag) && s2.holder == R.Nobody && R.LoopAt(s2.loops, l).Finished?
            && Related(s2, id, v.(mode := ESTABLISHED, reconnecting := false)) && s2.abandoned == s.abandoned
  {
  }

  lemma AbandonedStep(s: R.State, l: nat, id: Identity, v: View, dial: Dial)
    requires At(s, l, R.Abandoned) && Related(s, id, v)
    ensures var s' := Next(s, l, R.Good, dial);
            && s'.holder == R.Nobody && R.LoopAt(s'.loops, l).Finished?
            && Related(s', id, v.(reconnecting := false)) && s'.abandoned == s.abandoned
  {
  }

  predicate SameIds(attempts: seq<R.Attempt>, after: seq<R.Attempt>) {
    && |after| == |attempts|
    && forall i | 0 <= i < |attempts| :: after[i].sessionId == attempts[i].sessionId && after[i].key == attempts[i].key
  }

  // one attempt

  /** From `Connecting` to the opened connection, or to the failure. */
  lemma OpenAlone(s: R.State, l: nat, id: Identity, v: View, dial: Dial) returns (steps: seq<R.Step>)
    requires At(s, l, R.Connecting) && Related(s, id, v) && Fresh(s.attempts, dial)
    ensures R.Valid(s, steps)
    ensures var s' := R.Exec(s, steps);
            && s'.abandoned == s.abandoned
            && if dial.reachable
               then At(s', l, R.Handshaking(v.dialled))
                    && Related(s', id, v.(mode := ESTABLISHING, dialled := v.dialled + 1))
                    && s'.attempts == s.attempts + [R.Attempt(dial.sessionId, DeriveSessionKey(dial.secret), false)]
               else At(s', l, R.SetFailed) && Related(s', id, v.(mode := CONNECTING)) && s'.attempts == s.attempts
  {
    hide R.Valid, R.Exec, Next, Related, Fresh;
    Begin(s);
    ConnectingStep(s, l, id, v, dial);
    steps := Advance(s, [], s, l, R.Good, dial);
    var s1, io := Next(s, l, R.Good, dial), if dial.reachable then R.Good else R.Failed;
    OpeningStep(s1, l, id, v.(mode := CONNECTING), dial, io);
    steps := Advance(s, steps, s1, l, io, dial);
    if dial.reachable {
      var s2 := Next(s1, l, io, dial);
      EstablishingStep(s2, l, id, v.(mode := CONNECTING, dialled := v.dialled + 1), dial, v.dialled);
      steps := Advance(s, steps, s2, l, R.Good, dial);
    }
  }

  /** The three stores of a session that was confirmed. */
  lemma StoreAlone(s: R.State, l: nat, id: Identity, v: View, dial: Dial, a: nat) returns (steps: seq<R.Step>)
    requires At(s, l, R.StoreKey(a)) && Related(s, id, v) && a < |s.attempts|
    requires s.attempts[a].sessionId == dial.sessionId && s.attempts[a].key == DeriveSessionKey(dial.secret)
    ensures R.Valid(s, steps)
    ensures var s' := R.Exec(s, steps);
            && At(s', l, R.SetEstablished(a)) && s'.attempts == s.attempts && s'.abandoned == s.abandoned
            && Related(s', id, v.(sessionKey := Some(DeriveSessionKey(dial.secret)), sessionId := Some(dial.sessionId),
                                  sock := Some(a)))
  {
    hide R.Valid, R.Exec, Next, Related, Fresh;
    Begin(s);
    StoreKeyStep(s, l, id, v, dial, a);
    steps := Advance(s, [], s, l, R.Good, dial);
    var s1, v1 := Next(s, l, R.Good, dial), v.(sessionKey := Some(DeriveSessionKey(dial.secret)));
    StoreIdStep(s1, l, id, v1, dial, a);
    steps := Advance(s, steps, s1, l, R.Good, dial);
    var s2, v2 := Next(s1, l, R.Good, dial), v1.(sessionId := Some(dial.sessionId));
    StoreSockStep(s2, l, id, v2, dial, a);
    steps := Advance(s, steps, s2, l, R.Good, dial);
  }

  /** Where the loop is after an attempt that ended so. */
  function After(r: Result<()>, a: nat): R.Loop {
    match r
    case Ok(_) => R.SetEstablished(a)
    case Err(e) => if e.ConnectionClosed? then R.Abandoned else R.SetFailed
  }

  /** The fields after an attempt: the session only when it succeeded. */
  function Stores(v: View, dial: Dial, r: Result<()>, a: nat): View {
    if r.Ok?
    then v.(sessionKey := Some(DeriveSessionKey(dial.secret)), sessionId := Some(dial.sessionId), sock := Some(a))
    else v
  }

  /** The two replies. */
  lemma RepliesAlone(s: R.State, l: nat, id: Identity, v: View, dial: Dial, a: nat) returns (steps: seq<R.Step>)
    requires At(s, l, R.Handshaking(a)) && Related(s, id, v) && a < |s.attempts| && dial.reachable
    requires s.attempts[a].sessionId == dial.sessionId && s.attempts[a].key == DeriveSessionKey(dial.secret)
    ensures R.Valid(s, steps)
    ensures var s' := R.Exec(s, steps);
            var r := DialResult(id.pin, dial);
            && At(s', l, After(r, a)) && SameIds(s.attempts, s'.attempts)
            && (s'.abandoned <==> s.abandoned || After(r, a).Abandoned?)
            && Related(s', id, Stores(v, dial, r, a))
  {
    hide R.Valid, R.Exec, PinnedReply, Confirmation, Next, Related, Fresh;
    Begin(s);
    var pinned := PinnedReply(id.pin, dial);
    HandshakingStep(s, l, id, v, dial, a, IoOf(pinned));
    steps := Advance(s, [], s, l, IoOf(pinned), dial);
    if pinned.Ok? {
      var s1, confirmed := Next(s, l, IoOf(pinned), dial), Confirmation(dial, pinned.value);
      ReplyStep(s1, l, id, v, dial, a, IoOf(confirmed));
      steps := Advance(s, steps, s1, l, IoOf(confirmed), dial);
      if confirmed.Ok? {
        var later := StoreAlone(Next(s1, l, IoOf(confirmed), dial), l, id, v, dial, a);
        Joined(s, steps, later);
        steps := steps + later;
      }
    }
  }

  /** One attempt. */
  lemma AttemptAlone(s: R.State, l: nat, id: Identity, v: View, dial: Dial) returns (steps: seq<R.Step>)
    requires At(s, l, R.Connecting) && Related(s, id, v) && Fresh(s.attempts, dial)
    ensures R.Valid(s, steps)
    ensures var s' := R.Exec(s, steps);
            var (v', r) := Once(id, v.(mode := CONNECTING), dial);
            && At(s', l, After(r, v.dialled)) && Related(s', id, v')
            && (s'.abandoned <==> s.abandoned || After(r, v.dialled).Abandoned?)
            && (SameIds(s.attempts, s'.attempts)
                || SameIds(s.attempts + [R.Attempt(dial.sessionId, DeriveSessionKey(dial.secret), false)], s'.attempts))
  {
    hide R.Valid, R.Exec, PinnedReply, Confirmation, Next, Related, Fresh;
    steps := OpenAlone(s, l, id, v, dial);
    if dial.reachable {
      var s1 := R.Exec(s, steps);
      var v1 := v.(mode := ESTABLISHING, dialled := v.dialled + 1);
      DialledIs(s, id, v);
      var later := RepliesAlone(s1, l, id, v1, dial, v.dialled);
      Joined(s, steps, later);
      steps := steps + later;
      OnceStores(id, v.(mode := CONNECTING), dial);
      SameFields(R.Exec(s, steps), id, Stores(v1, dial, DialResult(id.pin, dial), v.dialled),
                 Once(id, v.(mode := CONNECTING), dial).0);
    }
  }

  lemma DialledIs(s: R.State, id: Identity, v: View)
    requires Related(s, id, v)
    ensures |s.attempts| == v.dialled
  {
  }

  /** What the machine sees of a view. */
  predicate Alike(v: View, w: View) {
    && v.mode == w.mode && v.reconnecting == w.reconnecting && v.spawned == w.spawned && v.sock == w.sock
    && v.dialled == w.dialled && v.sessionKey == w.sessionKey && v.sessionId == w.sessionId
  }

  lemma SameFields(s: R.State, id: Identity, v: View, w: View)
    requires Related(s, id, v) && Alike(v, w)
    ensures Related(s, id, w)
  {
  }

  lemma OnceStores(id: Identity, v: View, dial: Dial)
    requires dial.reachable
    ensures Once(id, v, dial).1 == DialResult(id.pin, dial)
    ensures Alike(Stores(v.(mode := ESTABLISHING, dialled := v.dialled + 1), dial, DialResult(id.pin, dial), v.dialled),
                  Once(id, v, dial).0)
  {
    hide PinnedReply, Confirmation, EncodeMessage, GatewayClaims, RequestMessage, EncapsMessage;
  }

  // all attempts

  /** Every dial takes an id and a key of its own. */
  ghost predicate AllFresh(attempts: seq<R.Attempt>, dials: seq<Dial>) {
    && (forall i | 0 <= i < |dials| :: Fresh(attempts, dials[i]))
    && (forall i, j | 0 <= i < j < |dials| ::
          dials[i].sessionId != dials[j].sessionId && dials[i].secret != dials[j].secret)
  }

  lemma StillFresh(attempts: seq<R.Attempt>, after: seq<R.Attempt>, dials: seq<Dial>)
    requires dials != [] && AllFresh(attempts, dials)
    requires var dial := dials[0];
             SameIds(attempts, after)
             || SameIds(attempts + [R.Attempt(dial.sessionId, DeriveSessionKey(dial.secret), false)], after)
    ensures AllFresh(after, dials[1..])
  {
    var more := attempts + [R.Attempt(dials[0].sessionId, DeriveSessionKey(dials[0].secret), false)];
    forall i | 0 <= i < |dials[1..]|
      ensures Fresh(after, dials[1..][i])
    {
      assert Fresh(attempts, dials[i + 1]) && Fresh(more, dials[i + 1]);
    }
  }

  /** The loop has ended and nobody establishes any more. */
  predicate Ended(s: R.State, l: nat) { s.holder == R.Nobody && R.LoopAt(s.loops, l).Finished? }

  lemma AdvanceTwice(s: R.State, steps: seq<R.Step>, now: R.State, l: nat, dial: Dial) returns (steps': seq<R.Step>)
    requires R.Valid(s, steps) && R.Exec(s, steps) == now && now.holder == R.Looping(l)
    requires !R.LoopAt(now.loops, l).Finished? && !R.LoopAt(now.loops, l).Opening?
    requires var s1 := Next(now, l, R.Good, dial);
             s1.holder == R.Looping(l) && !R.LoopAt(s1.loops, l).Finished? && !R.LoopAt(s1.loops, l).Opening?
    ensures R.Valid(s, steps') && R.Exec(s, steps') == Next(Next(now, l, R.Good, dial), l, R.Good, dial)
  {
    hide R.Valid, R.Exec, Next;
    steps' := Advance(s, steps, now, l, R.Good, dial);
    steps' := Advance(s, steps', Next(now, l, R.Good, dial), l, R.Good, dial);
  }

  lemma CaughtUnlessClosed(id: Identity, v: View, dial: Dial)
    ensures var r := Once(id, v, dial).1; r.Err? ==> (Caught(r.error) <==> !r.error.ConnectionClosed?)
  {
    hide Once, DialResult, PinnedReply;
    OnceMeaning(id, v, dial);
    EscapesIff(id.pin, dial);
  }

  lemma {:induction false} ConnectAlone(s: R.State, l: nat, id: Identity, v: View, dials: seq<Dial>, n: nat)
    returns (steps: seq<R.Step>)
    requires At(s, l, R.Connecting) && Related(s, id, v) && AllFresh(s.attempts, dials)
    ensures R.Valid(s, steps)
    ensures var s' := R.Exec(s, steps);
            var (v', outcome) := Connect(id, v, dials, n, None);
            && !outcome.GaveUp? && (s'.abandoned <==> s.abandoned || outcome.Escaped?)
            && if outcome.Trying? then At(s', l, R.Connecting) && Related(s', id, v')
               else Ended(s', l) && Related(s', id, v'.(reconnecting := false))
    decreases |dials|
  {
    hide R.Valid, R.Exec, Once, Next, Related, DialResult, SameIds, Fresh, AllFresh, Bump, Caught;
    if dials == [] {
      Begin(s);
      steps := [];
    } else {
      var dial := dials[0];
      FirstFresh(s.attempts, dials);
      steps := AttemptAlone(s, l, id, v, dial);
      var s1 := R.Exec(s, steps);
      var (v1, r) := Once(id, v.(mode := CONNECTING), dial);
      CaughtUnlessClosed(id, v.(mode := CONNECTING), dial);
      match r
      case Ok(_) =>
        EstablishedSteps(s1, l, id, v1, dial, v.dialled);
        steps := AdvanceTwice(s, steps, s1, l, dial);
        SameFields(R.Exec(s, steps), id, v1.(mode := ESTABLISHED, reconnecting := false),
                   v1.(mode := ESTABLISHED).(reconnecting := false));
      case Err(e) =>
        if e.ConnectionClosed? {
          AbandonedStep(s1, l, id, v1, dial);
          steps := Advance(s, steps, s1, l, R.Good, dial);
        } else {
          var failed := v1.(mode := DISCONNECTED, counters := Bump(v1.counters, Errors));
          FailedSteps(s1, l, id, v1, dial);
          steps := AdvanceTwice(s, steps, s1, l, dial);
          var s2 := R.Exec(s, steps);
          SameFields(s2, id, v1.(mode := DISCONNECTED), failed);
          StillFresh(s.attempts, s2.attempts, dials);
          var later := ConnectAlone(s2, l, id, failed, dials[1..], n + 1);
          Joined(s, steps, later);
          steps := steps + later;
        }
    }
  }

  lemma FirstFresh(attempts: seq<R.Attempt>, dials: seq<Dial>)
    requires dials != [] && AllFresh(attempts, dials)
    ensures Fresh(attempts, dials[0])
  {
  }

  /** A reconnect loop that runs alone, whatever its dials meet, leaves the machine's fields as the
      channel's own code leaves the channel: while it is still trying it stands before the next dial;
      otherwise it has ended, and it is abandoned exactly when an attempt escaped it. */
  lemma ReconnectIsARun(s: R.State, l: nat, id: Identity, v: View, dials: seq<Dial>) returns (steps: seq<R.Step>)
    requires At(s, l, R.Connecting) && Related(s, id, v) && AllFresh(s.attempts, dials)
    ensures R.Valid(s, steps)
    ensures var s' := R.Exec(s, steps);
            var (v', outcome) := Reconnect(id, v, dials);
            && Related(s', id, v')
            && (outcome.Trying? ==> At(s', l, R.Connecting)) && (!outcome.Trying? ==> Ended(s', l))
            && (s'.abandoned <==> s.abandoned || outcome.Escaped?)
  {
    hide R.Valid, R.Exec, Connect, Related, AllFresh;
    steps := ConnectAlone(s, l, id, v, dials, 0);
  }

  // ----- sending -----

  /** The machine with thread t here and the lock so. */
  function With(s: R.State, t: nat, pc: R.Sender, lock: Option<nat>): R.State {
    s.(senders := s.senders[t := pc], lock := lock)
  }

  lemma WithTwice(s: R.State, t: nat, pc: R.Sender, lock: Option<nat>, pc': R.Sender, lock': Option<nat>)
    ensures With(With(s, t, pc, lock), t, pc', lock') == With(s, t, pc', lock')
    ensures R.SenderAt(With(s, t, pc, lock).senders, t) == pc
  {
    assert s.senders[t := pc][t := pc'] == s.senders[t := pc'];
  }

  lemma Go(s: R.State, steps: seq<R.Step>, now: R.State, t: nat, ok: bool) returns (steps': seq<R.Step>)
    requires R.Valid(s, steps) && R.Exec(s, steps) == now
    requires R.Enabled(now, R.Advance(t, ok))
    ensures R.Valid(s, steps') && R.Exec(s, steps') == R.AdvanceSender(now, t, ok)
  {
    hide R.AdvanceSender, R.Valid, R.Exec, R.Enabled;
    steps' := Push(s, steps, R.Advance(t, ok));
  }

  /** A step before the payload is on the socket moves only the thread and the lock. */
  lemma Quiet(s: R.State, t: nat, pc: R.Sender, lock: Option<nat>, ok: bool)
    requires !pc.Sending? && !pc.Failing? && !R.NextSender(s, pc, ok).Failing?
    ensures var pc' := R.NextSender(s, pc, ok);
            R.AdvanceSender(With(s, t, pc, lock), t, ok)
            == With(s, t, pc', if R.Holding(pc') then Some(t) else if R.Holding(pc) then None else lock)
  {
    WithTwice(s, t, pc, lock, R.NextSender(s, pc, ok), if R.Holding(R.NextSender(s, pc, ok)) then Some(t) else lock);
    WithTwice(s, t, pc, lock, R.NextSender(s, pc, ok), None);
    WithTwice(s, t, pc, lock, R.NextSender(s, pc, ok), lock);
  }

  lemma QuietStep(s: R.State, steps: seq<R.Step>, t: nat, pc: R.Sender, lock: Option<nat>, ok: bool)
    returns (steps': seq<R.Step>)
    requires R.Valid(s, steps) && R.Exec(s, steps) == With(s, t, pc, lock)
    requires !pc.Idle? && !pc.Dead? && !pc.Sending? && !pc.Failing? && (pc.Built? ==> lock.None?)
    requires !R.NextSender(s, pc, ok).Failing?
    ensures R.Valid(s, steps')
    ensures var pc' := R.NextSender(s, pc, ok);
            var lock' := if R.Holding(pc') then Some(t) else if R.Holding(pc) then None else lock;
            R.Exec(s, steps') == With(s, t, pc', lock')
  {
    hide R.AdvanceSender, R.Valid, R.Exec, R.NextSender;
    WithTwice(s, t, pc, lock, pc, lock);
    Quiet(s, t, pc, lock, ok);
    steps' := Go(s, steps, With(s, t, pc, lock), t, ok);
  }

  /** `is_established`, the key and the id, the lock and the socket, one read at a time. */
  lemma ReadAlone(s: R.State, t: nat, ok: bool) returns (steps: seq<R.Step>)
    requires R.SenderAt(s.senders, t).Idle? && s.holder != R.Main && s.lock.None? && (s.key.Some? ==> s.id.Some?)
    ensures R.Valid(s, steps)
    ensures R.Exec(s, steps) == if R.Usable(s)
                                then With(s, t, R.Sending(s.key.value, s.id.value, s.sock.value), Some(t))
                                else With(s, t, R.Idle, None)
  {
    hide R.Valid, R.Exec, With, R.NextSender;
    Begin(s);
    CallStep(s, t);
    Reads(s, ok);
    steps := Push(s, [], R.Call(t));
    steps := QuietStep(s, steps, t, R.CheckState, None, ok);
    if s.mode == ESTABLISHED {
      steps := QuietStep(s, steps, t, R.CheckSock, None, ok);
      if s.sock.Some? {
        steps := QuietStep(s, steps, t, R.CheckKey, None, ok);
        if s.key.Some? {
          steps := LockAlone(s, steps, t, s.key.value, s.id.value, ok);
        }
      }
    }
  }

  lemma CallStep(s: R.State, t: nat)
    requires R.SenderAt(s.senders, t).Idle? && s.holder != R.Main && s.lock.None?
    ensures R.Enabled(s, R.Call(t)) && R.Apply(s, R.Call(t)) == With(s, t, R.CheckState, None)
  {
  }

  lemma Reads(s: R.State, ok: bool)
    ensures R.NextSender(s, R.CheckState, ok) == if s.mode == ESTABLISHED then R.CheckSock else R.Idle
    ensures R.NextSender(s, R.CheckSock, ok) == if s.sock.Some? then R.CheckKey else R.Idle
    ensures R.NextSender(s, R.CheckKey, ok) == if s.key.Some? then R.ReadKey else R.Idle
    ensures s.key.Some? ==> R.NextSender(s, R.ReadKey, ok) == R.ReadId(s.key.value)
  {
  }

  lemma LocksNext(s: R.State, key: nat, id: nat, ok: bool)
    requires s.id == Some(id) && s.sock.Some?
    ensures R.NextSender(s, R.ReadId(key), ok) == R.Built(key, id)
    ensures R.NextSender(s, R.Built(key, id), ok) == R.Locked(key, id)
    ensures R.NextSender(s, R.Locked(key, id), ok) == R.Sending(key, id, s.sock.value)
  {
  }

  lemma LockAlone(s: R.State, steps: seq<R.Step>, t: nat, key: nat, id: nat, ok: bool) returns (steps': seq<R.Step>)
    requires R.Valid(s, steps) && R.Exec(s, steps) == With(s, t, R.ReadKey, None)
    requires s.key == Some(key) && s.id == Some(id) && s.sock.Some?
    ensures R.Valid(s, steps') && R.Exec(s, steps') == With(s, t, R.Sending(key, id, s.sock.value), Some(t))
  {
    hide R.Valid, R.Exec, With, R.NextSender;
    Reads(s, ok);
    LocksNext(s, key, id, ok);
    steps' := QuietStep(s, steps, t, R.ReadKey, None, ok);
    steps' := QuietStep(s, steps', t, R.ReadId(key), None, ok);
    steps' := QuietStep(s, steps', t, R.Built(key, id), None, ok);
    steps' := QuietStep(s, steps', t, R.Locked(key, id), Some(t), ok);
  }

  lemma UsableAlike(s: R.State, id: Identity, v: View)
    requires Related(s, id, v) && Coherent(v)
    ensures R.Usable(s) <==> v.Usable()
    ensures s.key.Some? ==> s.id.Some?
  {
  }

  /** The machine inside `_invalidate`, before this assignment; the first ones are done. */
  function Invalidating(s: R.State, t: nat, step: R.InvalidateStep, windowFailure: bool): R.State {
    With(s, t, R.Failing(step), Some(t)).(
      windowFailure := windowFailure,
      sock := if step.ClearSock? then s.sock else None,
      key := if step.ClearSock? || step.ClearKey? then s.key else None,
      mode := if step.TestFlag? || step.Spawn? then FAILED else s.mode,
      reconnecting := s.reconnecting || step.Spawn?,
      holder := if step.Spawn? then R.Spawning(t) else s.holder)
  }

  /** The machine after it. */
  function Failed(s: R.State, t: nat, windowFailure: bool): R.State {
    With(s, t, R.Idle, None).(
      windowFailure := windowFailure, sock := None, key := None, mode := FAILED,
      reconnecting := s.reconnecting || s.auto,
      skipped := s.skipped || (s.auto && s.reconnecting),
      loops := if s.auto && !s.reconnecting then s.loops[s.spawned := R.Connecting] else s.loops,
      spawned := if s.auto && !s.reconnecting then s.spawned + 1 else s.spawned,
      holder := if s.auto && !s.reconnecting then R.Looping(s.spawned) else s.holder)
  }

  lemma SendingStep(s: R.State, t: nat, key: nat, id: nat, sock: nat, ok: bool)
    ensures var s' := R.AdvanceSender(With(s, t, R.Sending(key, id, sock), Some(t)), t, ok);
            if ok then s' == With(s, t, R.Idle, None).(sent := s.sent + [R.Delivery(sock, key, id)])
            else s' == Invalidating(s, t, R.ClearSock, s.windowFailure || R.InWindow(s))
  {
    WithTwice(s, t, R.Sending(key, id, sock), Some(t), R.Idle, None);
    WithTwice(s, t, R.Sending(key, id, sock), Some(t), R.Failing(R.ClearSock), Some(t));
  }

  lemma ClearingSteps(s: R.State, t: nat, w: bool)
    ensures R.AdvanceSender(Invalidating(s, t, R.ClearSock, w), t, true) == Invalidating(s, t, R.ClearKey, w)
    ensures R.AdvanceSender(Invalidating(s, t, R.ClearKey, w), t, true) == Invalidating(s, t, R.SetFailedState, w)
  {
    WithTwice(s, t, R.Failing(R.ClearSock), Some(t), R.Failing(R.ClearKey), Some(t));
    WithTwice(s, t, R.Failing(R.ClearKey), Some(t), R.Failing(R.SetFailedState), Some(t));
  }

  lemma FailedStateStep(s: R.State, t: nat, w: bool)
    ensures R.AdvanceSender(Invalidating(s, t, R.SetFailedState, w), t, true)
         == if s.auto then Invalidating(s, t, R.TestFlag, w) else Failed(s, t, w)
  {
    WithTwice(s, t, R.Failing(R.SetFailedState), Some(t), R.Failing(R.TestFlag), Some(t));
    WithTwice(s, t, R.Failing(R.SetFailedState), Some(t), R.Idle, None);
  }

  lemma TestFlagStep(s: R.State, t: nat, w: bool)
    requires s.auto
    ensures R.AdvanceSender(Invalidating(s, t, R.TestFlag, w), t, true)
         == if s.reconnecting then Failed(s, t, w) else Invalidating(s, t, R.Spawn, w)
  {
    WithTwice(s, t, R.Failing(R.TestFlag), Some(t), R.Failing(R.Spawn), Some(t));
    WithTwice(s, t, R.Failing(R.TestFlag), Some(t), R.Idle, None);
  }

  lemma SpawnStep(s: R.State, t: nat, w: bool)
    requires s.auto && !s.reconnecting
    ensures R.AdvanceSender(Invalidating(s, t, R.Spawn, w), t, true) == Failed(s, t, w)
  {
    WithTwice(s, t, R.Failing(R.Spawn), Some(t), R.Idle, None);
  }

  lemma FailingHere(s: R.State, t: nat, step: R.InvalidateStep, w: bool)
    ensures R.Enabled(Invalidating(s, t, step, w), R.Advance(t, true))
  {
  }

  /** The call on the socket, and what follows when it fails. */
  lemma FinishAlone(s: R.State, t: nat, key: nat, id: nat, sock: nat, ok: bool) returns (steps: seq<R.Step>)
    ensures var sending := With(s, t, R.Sending(key, id, sock), Some(t));
            && R.Valid(sending, steps)
            && R.Exec(sending, steps)
            == if ok then With(s, t, R.Idle, None).(sent := s.sent + [R.Delivery(sock, key, id)])
               else Failed(s, t, s.windowFailure || R.InWindow(s))
  {
    hide R.Valid, R.Exec, R.AdvanceSender, Failed, Invalidating, R.InWindow;
    var sending := With(s, t, R.Sending(key, id, sock), Some(t));
    Begin(sending);
    SendingStep(s, t, key, id, sock, ok);
    WithTwice(s, t, R.Sending(key, id, sock), Some(t), R.Idle, None);
    steps := Go(sending, [], sending, t, ok);
    if !ok {
      var w := s.windowFailure || R.InWindow(s);
      hide With;
      ClearingSteps(s, t, w);
      FailedStateStep(s, t, w);
      FailingHere(s, t, R.ClearSock, w);
      steps := Go(sending, steps, Invalidating(s, t, R.ClearSock, w), t, true);
      FailingHere(s, t, R.ClearKey, w);
      steps := Go(sending, steps, Invalidating(s, t, R.ClearKey, w), t, true);
      FailingHere(s, t, R.SetFailedState, w);
      steps := Go(sending, steps, Invalidating(s, t, R.SetFailedState, w), t, true);
      if s.auto {
        TestFlagStep(s, t, w);
        FailingHere(s, t, R.TestFlag, w);
        steps := Go(sending, steps, Invalidating(s, t, R.TestFlag, w), t, true);
        if !s.reconnecting {
          SpawnStep(s, t, w);
          FailingHere(s, t, R.Spawn, w);
          steps := Go(sending, steps, Invalidating(s, t, R.Spawn, w), t, true);
        }
      }
    }
  }

  /** What a send alone leaves in the machine. */
  lemma SentRelated(s: R.State, t: nat, id: Identity, v: View, reading: bytes, nonce: bytes, ciphertext: bytes,
                    ok: bool, s': R.State)
    requires Related(s, id, v) && Coherent(v) && s.lock.None?
    requires s' == if !R.Usable(s) then With(s, t, R.Idle, None)
                   else if ok
                   then With(s, t, R.Idle, None).(sent := s.sent + [R.Delivery(s.sock.value, s.key.value, s.id.value)])
                   else Failed(s, t, s.windowFailure || R.InWindow(s))
    ensures var (v', outcome) := Send(id, v, reading, nonce, ciphertext, ok);
            && Related(s', id, v') && R.SenderAt(s'.senders, t).Idle? && s'.lock.None?
            && (outcome == Gateway.Sent ==>
                  s.sock.Some? && s.key.Some? && s.id.Some?
                  && s'.sent == s.sent + [R.Delivery(s.sock.value, s.key.value, s.id.value)])
            && (outcome != Gateway.Sent ==> s'.sent == s.sent)
            && (v'.spawned > v.spawned ==> At(s', s.spawned, R.Connecting))
            && (v'.spawned == v.spawned ==> s'.holder == s.holder && s'.loops == s.loops)
  {
    hide R.InWindow, EncodeMessage;
  }

  /** A call of `send_reading` that runs alone does to the machine's fields what it does to the
      channel; it delivers on the channel's socket with its key and id exactly when it returns, and a
      failed one hands over to a new reconnect loop exactly when none is flagged. */
  lemma SendIsARun(s: R.State, t: nat, id: Identity, v: View, reading: bytes, nonce: bytes, ciphertext: bytes, ok: bool)
    returns (steps: seq<R.Step>)
    requires Related(s, id, v) && Coherent(v)
    requires R.SenderAt(s.senders, t).Idle? && s.holder != R.Main && s.lock.None?
    ensures R.Valid(s, steps)
    ensures var s' := R.Exec(s, steps);
            var (v', outcome) := Send(id, v, reading, nonce, ciphertext, ok);
            && Related(s', id, v') && R.SenderAt(s'.senders, t).Idle? && s'.lock.None?
            && (outcome == Gateway.Sent ==>
                  s.sock.Some? && s.key.Some? && s.id.Some?
                  && s'.sent == s.sent + [R.Delivery(s.sock.value, s.key.value, s.id.value)])
            && (outcome != Gateway.Sent ==> s'.sent == s.sent)
            && (v'.spawned > v.spawned ==> At(s', s.spawned, R.Connecting))
            && (v'.spawned == v.spawned ==> s'.holder == s.holder && s'.loops == s.loops)
  {
    hide R.Valid, R.Exec, With, Related, Send, Failed, R.InWindow;
    UsableAlike(s, id, v);
    steps := ReadAlone(s, t, ok);
    if R.Usable(s) {
      var later := FinishAlone(s, t, s.key.value, s.id.value, s.sock.value, ok);
      Joined(s, steps, later);
      steps := steps + later;
    }
    SentRelated(s, t, id, v, reading, nonce, ciphertext, ok, R.Exec(s, steps));
  }
}
