/** The interleaved gateway process refined by the server's own code: whatever a peer sends, one
    handler that runs alone is a run of the process, and it does to the process exactly what
    `HandleConnection` does to the server. */
module GatewayAlone {
  import opened Wrappers
  import opened Text
  import opened Protocol
  import opened Crypto
  import opened GatewayProcessing
  import opened Replay
  import G = Gateway
  import R = GatewayRuns

  // ----- runs of the process -----

  ghost predicate Valid(t: Table, keys: map<string, Key>, p: R.Process, steps: seq<R.Step>)
    decreases |steps|
  {
    steps == []
    || (R.Enabled(p, steps[0]) && R.Registered(keys, p) && Valid(t, keys, R.Apply(t, keys, p, steps[0]), steps[1..]))
  }

  ghost function Exec(t: Table, keys: map<string, Key>, p: R.Process, steps: seq<R.Step>): R.Process
    requires Valid(t, keys, p, steps)
    decreases |steps|
  {
    if steps == [] then p else Exec(t, keys, R.Apply(t, keys, p, steps[0]), steps[1..])
  }

  lemma {:induction false} Joined(t: Table, keys: map<string, Key>, p: R.Process, one: seq<R.Step>, other: seq<R.Step>)
    requires Valid(t, keys, p, one) && Valid(t, keys, Exec(t, keys, p, one), other)
    ensures Valid(t, keys, p, one + other)
    ensures Exec(t, keys, p, one + other) == Exec(t, keys, Exec(t, keys, p, one), other)
    decreases |one|
  {
    hide R.Apply, R.Enabled, R.Registered;
    if one == [] {
      assert one + other == other;
    } else {
      assert (one + other)[1..] == one[1..] + other;
      Joined(t, keys, R.Apply(t, keys, p, one[0]), one[1..], other);
    }
  }

  lemma OneStep(t: Table, keys: map<string, Key>, p: R.Process, step: R.Step)
    requires R.Enabled(p, step) && R.Registered(keys, p)
    ensures Valid(t, keys, p, [step]) && Exec(t, keys, p, [step]) == R.Apply(t, keys, p, step)
  {
    hide R.Apply, R.Enabled, R.Registered;
  }

  lemma TwoSteps(t: Table, keys: map<string, Key>, p: R.Process, one: R.Step, two: R.Step)
    requires R.Enabled(p, one) && R.Registered(keys, p)
    requires var p' := R.Apply(t, keys, p, one); R.Enabled(p', two) && R.Registered(keys, p')
    ensures Valid(t, keys, p, [one, two])
    ensures Exec(t, keys, p, [one, two]) == R.Apply(t, keys, R.Apply(t, keys, p, one), two)
  {
    hide R.Apply, R.Enabled, R.Registered;
    OneStep(t, keys, p, one);
    OneStep(t, keys, R.Apply(t, keys, p, one), two);
    Joined(t, keys, p, [one], [two]);
    assert [one] + [two] == [one, two];
  }

  // ----- one handler alone -----

  /** What the handlers share, apart from the channel. */
  predicate Same(a: G.Desk, b: G.Desk) { a.guard == b.guard && a.seen == b.seen && a.counters == b.counters }

  /** The readings behind the names in a history of deliveries. */
  function Named(accepted: seq<R.Accepted>, indices: seq<nat>): seq<bytes> {
    seq(|indices|, i requires 0 <= i < |indices| =>
      if indices[i] < |accepted| then accepted[indices[i]].reading else [])
  }

  /** From p to p' the handler of connection c went from its state to `conn` and did to the process what
      leads from h to h'; `ending` says whether it ended. */
  ghost predicate Follows(p: R.Process, p': R.Process, c: nat, conn: R.Conn, h: G.Desk, h': G.Desk,
                          ending: Option<G.Ending>)
  {
    && Same(p'.desk, if ending.Some? then G.Settle(h', ending.value) else h')
    && p'.conns == p.conns[c := conn]
    && p'.endings == p.endings + (if ending.Some? then [ending.value] else [])
    && p.accepted <= p'.accepted && p.delivered <= p'.delivered
    && (forall i | |p.delivered| <= i < |p'.delivered| :: p'.delivered[i] < |p'.accepted|)
    && h'.delivered == h.delivered + Named(p'.accepted, p'.delivered[|p.delivered|..])
  }

  lemma NamedJoins(fewer: seq<R.Accepted>, more: seq<R.Accepted>, one: seq<nat>, two: seq<nat>)
    requires fewer <= more && forall i | 0 <= i < |one| :: one[i] < |fewer|
    ensures Named(more, one + two) == Named(fewer, one) + Named(more, two)
  {
  }

  lemma FollowsTwice(p: R.Process, p1: R.Process, p2: R.Process, c: nat, conn1: R.Conn, conn2: R.Conn, h: G.Desk,
                     h1: G.Desk, h2: G.Desk, ending: Option<G.Ending>)
    requires Follows(p, p1, c, conn1, h, h1, None) && Follows(p1, p2, c, conn2, h1, h2, ending)
    ensures Follows(p, p2, c, conn2, h, h2, ending)
  {
    hide G.Settle, Named, Same;
    var one, two := p1.delivered[|p.delivered|..], p2.delivered[|p1.delivered|..];
    assert p2.delivered[|p.delivered|..] == one + two;
    assert forall i | 0 <= i < |one| :: one[i] == p1.delivered[|p.delivered| + i];
    NamedJoins(p1.accepted, p2.accepted, one, two);
    assert p.conns[c := conn1][c := conn2] == p.conns[c := conn2];
  }

  lemma SettleSame(a: G.Desk, b: G.Desk, ending: G.Ending)
    requires Same(a, b)
    ensures Same(G.Settle(a, ending), G.Settle(b, ending))
    ensures G.Settle(a, ending).delivered == a.delivered
  {
  }

  lemma ScreenSame(t: Table, a: G.Desk, b: G.Desk, m: Message, key: Key, deviceId: string)
    requires Same(a, b)
    ensures var (a', s) := G.Screen(t, a, m, key, deviceId);
            var (b', s') := G.Screen(t, b, m, key, deviceId);
            Same(a', b') && s == s' && b'.script == b.script && b'.delivered == b.delivered
  {
    hide DecryptLegacyMessage, Accepts, Record;
  }

  /** One turn of the serve loop is one step of the process, or two when a reading is forwarded. */
  lemma TurnAlone(t: Table, keys: map<string, Key>, p: R.Process, h: G.Desk, c: nat, deviceId: string, m: Message)
    returns (steps: seq<R.Step>)
    requires c in p.conns && p.conns[c] == R.Serving(deviceId) && R.Registered(keys, p) && deviceId in keys
    requires Same(p.desk, h) && Readable(m)
    ensures Valid(t, keys, p, steps)
    ensures var (h', ending) := G.OnReading(t, h, m, keys[deviceId], deviceId);
            var p' := Exec(t, keys, p, steps);
            && Follows(p, p', c, if ending.Some? then R.Closed else R.Serving(deviceId), h, h', ending)
            && R.Registered(keys, p')
  {
    hide G.Screen, G.Settle, Readable, LegacySlot, R.Presents;
    var key := keys[deviceId];
    var reading := R.Reading(c, Ok(m));
    ScreenSame(t, p.desk, h, m, key, deviceId);
    var (d, s) := G.Screen(t, p.desk, m, key, deviceId);
    var p1 := R.Apply(t, keys, p, reading);
    match s
    case Drop =>
      steps := [reading];
      OneStep(t, keys, p, reading);
    case Close(e) =>
      steps := [reading];
      OneStep(t, keys, p, reading);
      SettleSame(d, G.Screen(t, h, m, key, deviceId).0, G.BadReading(e));
    case Keep(text, _) =>
      steps := ForwardAlone(t, keys, p, h, c, deviceId, m);
  }

  lemma ForwardAlone(t: Table, keys: map<string, Key>, p: R.Process, h: G.Desk, c: nat, deviceId: string, m: Message)
    returns (steps: seq<R.Step>)
    requires c in p.conns && p.conns[c] == R.Serving(deviceId) && R.Registered(keys, p) && deviceId in keys
    requires Same(p.desk, h) && Readable(m)
    requires G.Screen(t, p.desk, m, keys[deviceId], deviceId).1.Keep?
    ensures Valid(t, keys, p, steps)
    ensures var (h', ending) := G.OnReading(t, h, m, keys[deviceId], deviceId);
            var p' := Exec(t, keys, p, steps);
            && Follows(p, p', c, if ending.Some? then R.Closed else R.Serving(deviceId), h, h', ending)
            && R.Registered(keys, p')
  {
    hide G.Screen, G.Settle, Readable, LegacySlot, R.Presents, Follows;
    var key := keys[deviceId];
    ScreenSame(t, p.desk, h, m, key, deviceId);
    var d := G.Screen(t, h, m, key, deviceId).0;
    var outcome := G.NextOutcome(h.script);
    var h' := G.OnReading(t, h, m, key, deviceId).0;
    var p1 := R.Apply(t, keys, p, R.Reading(c, Ok(m)));
    if outcome == G.Sent {
      steps := [R.Reading(c, Ok(m)), R.Forwarded(c)];
      TwoSteps(t, keys, p, R.Reading(c, Ok(m)), R.Forwarded(c));
      SentFollows(p, R.Apply(t, keys, p1, R.Forwarded(c)), h, h', c, deviceId);
    } else {
      steps := [R.Reading(c, Ok(m)), R.ForwardFailed(c, outcome)];
      TwoSteps(t, keys, p, R.Reading(c, Ok(m)), R.ForwardFailed(c, outcome));
      var ending := G.Forwarding(if outcome == G.Refused then CryptoError else Unhandled);
      SettleSame(p1.desk, h', ending);
      RefusedFollows(p, R.Apply(t, keys, p1, R.ForwardFailed(c, outcome)), h, h', c, ending);
    }
  }

  lemma SentFollows(p: R.Process, p': R.Process, h: G.Desk, h': G.Desk, c: nat, deviceId: string)
    requires Same(p'.desk, h') && p'.conns == p.conns[c := R.Serving(deviceId)] && p'.endings == p.endings
    requires p.accepted <= p'.accepted && |p'.accepted| == |p.accepted| + 1
    requires p'.delivered == p.delivered + [|p.accepted|]
    requires h'.delivered == h.delivered + [p'.accepted[|p.accepted|].reading]
    ensures Follows(p, p', c, R.Serving(deviceId), h, h', None)
  {
    assert p'.delivered[|p.delivered|..] == [|p.accepted|] && p.endings + [] == p.endings;
  }

  lemma RefusedFollows(p: R.Process, p': R.Process, h: G.Desk, h': G.Desk, c: nat, ending: G.Ending)
    requires Same(p'.desk, G.Settle(h', ending)) && p'.conns == p.conns[c := R.Closed]
    requires p'.endings == p.endings + [ending] && p.accepted <= p'.accepted && p'.delivered == p.delivered
    requires h'.delivered == h.delivered
    ensures Follows(p, p', c, R.Closed, h, h', Some(ending))
  {
    hide G.Settle;
    assert h.delivered == h.delivered + Named(p'.accepted, []);
  }

  lemma {:induction false} ServeAlone(t: Table, keys: map<string, Key>, p: R.Process, h: G.Desk, c: nat,
                                      deviceId: string, data: bytes)
    returns (steps: seq<R.Step>)
    requires c in p.conns && p.conns[c] == R.Serving(deviceId) && R.Registered(keys, p) && deviceId in keys
    requires Same(p.desk, h)
    ensures Valid(t, keys, p, steps)
    ensures var (h', ending) := G.Serve(t, h, data, keys[deviceId], deviceId);
            Follows(p, Exec(t, keys, p, steps), c, R.Closed, h, h', Some(ending))
    decreases |data|
  {
    hide ReadMessage, G.OnReading, G.Settle, Follows, R.Registered;
    match ReadMessage(data)
    case (Err(e), _) =>
      var step := R.Reading(c, Err(e));
      steps := [step];
      OneStep(t, keys, p, step);
      ErrorFollows(p, h, c, G.Stream(e));
    case (Ok(m), rest) =>
      assert Readable(m);
      steps := TurnAlone(t, keys, p, h, c, deviceId, m);
      var p1 := Exec(t, keys, p, steps);
      match G.OnReading(t, h, m, keys[deviceId], deviceId)
      case (h1, Some(ending)) =>
      case (h1, None) =>
        FollowsConns(p, p1, c, R.Serving(deviceId), h, h1);
        var later := ServeAlone(t, keys, p1, h1, c, deviceId, rest);
        var (h2, ending) := G.Serve(t, h1, rest, keys[deviceId], deviceId);
        FollowsTwice(p, p1, Exec(t, keys, p1, later), c, R.Serving(deviceId), R.Closed, h, h1, h2, Some(ending));
        Joined(t, keys, p, steps, later);
        steps := steps + later;
  }

  lemma FollowsConns(p: R.Process, p': R.Process, c: nat, conn: R.Conn, h: G.Desk, h': G.Desk)
    requires Follows(p, p', c, conn, h, h', None)
    ensures c in p'.conns && p'.conns[c] == conn && Same(p'.desk, h')
  {
  }

  lemma ErrorFollows(p: R.Process, h: G.Desk, c: nat, ending: G.Ending)
    requires Same(p.desk, h)
    ensures Follows(p, R.Close(p, c, p.desk, ending), c, R.Closed, h, h, Some(ending))
  {
    hide G.Settle;
    SettleSame(p.desk, h, ending);
    assert h.delivered == h.delivered + Named(p.accepted, []);
  }

  lemma WelcomeSame(t: Table, keys: map<string, Key>, a: G.Desk, b: G.Desk, hello: Hello)
    requires Same(a, b)
    ensures var (a', e) := G.Welcome(t, keys, a, hello);
            var (b', e') := G.Welcome(t, keys, b, hello);
            Same(a', b') && e == e' && b'.script == b.script && b'.delivered == b.delivered
  {
    hide EvaluateHello;
  }

  /** After the hello is read. */
  lemma HelloAlone(t: Table, keys: map<string, Key>, p: R.Process, h: G.Desk, c: nat, m: Message, rest: bytes)
    returns (steps: seq<R.Step>)
    requires c in p.conns && p.conns[c].AwaitHello? && R.Registered(keys, p) && Same(p.desk, h) && Readable(m)
    ensures Valid(t, keys, p, steps)
    ensures var (h', ending) := match ParseHello(m)
                                case Err(e) => (h, G.BadHello(e))
                                case Ok(hello) => G.Admit(t, keys, h, hello, rest);
            Follows(p, Exec(t, keys, p, steps), c, R.Closed, h, h', Some(ending))
  {
    hide ParseHello, G.Welcome, G.Serve, G.Settle, Readable, HelloSlot, Follows;
    var step := R.Hello(c, Ok(m));
    OneStep(t, keys, p, step);
    steps := [step];
    match ParseHello(m)
    case Err(e) => ErrorFollows(p, h, c, G.BadHello(e));
    case Ok(hello) =>
      WelcomeSame(t, keys, p.desk, h, hello);
      var p1 := R.Apply(t, keys, p, step);
      match G.Welcome(t, keys, h, hello)
      case (h1, Some(ending)) =>
        DeclineFollows(p, p1, h, h1, c, ending, G.Welcome(t, keys, p.desk, hello).0);
      case (h1, None) =>
        WelcomeFollows(p, p1, h, h1, c, hello.deviceId);
        var later := ServeAlone(t, keys, p1, h1, c, hello.deviceId, rest);
        var (h2, ending) := G.Serve(t, h1, rest, keys[hello.deviceId], hello.deviceId);
        FollowsTwice(p, p1, Exec(t, keys, p1, later), c, R.Serving(hello.deviceId), R.Closed, h, h1, h2, Some(ending));
        Joined(t, keys, p, steps, later);
        steps := steps + later;
  }

  lemma DeclineFollows(p: R.Process, p': R.Process, h: G.Desk, h': G.Desk, c: nat, ending: G.Ending, d: G.Desk)
    requires Same(d, h') && h'.delivered == h.delivered && p' == R.Close(p, c, d, ending)
    ensures Follows(p, p', c, R.Closed, h, h', Some(ending))
  {
    hide G.Settle;
    SettleSame(d, h', ending);
    assert h.delivered == h.delivered + Named(p.accepted, []);
  }

  lemma WelcomeFollows(p: R.Process, p': R.Process, h: G.Desk, h': G.Desk, c: nat, deviceId: string)
    requires Same(p'.desk, h') && h'.delivered == h.delivered && p'.conns == p.conns[c := R.Serving(deviceId)]
    requires p'.accepted == p.accepted && p'.delivered == p.delivered && p'.endings == p.endings
    ensures Follows(p, p', c, R.Serving(deviceId), h, h', None)
  {
    assert h.delivered == h.delivered + Named(p.accepted, []) && p.endings + [] == p.endings;
  }

  /** For any process and any bytes, one more connection that is handled without interleaving is a run
      of the process, with the guard, the seen devices and the counters, the ending, and the readings
      delivered, that the server's own code has. */
  lemma HandleIsARun(t: Table, keys: map<string, Key>, p: R.Process, c: nat, script: seq<G.SendOutcome>, data: bytes)
    returns (steps: seq<R.Step>)
    requires c !in p.conns && R.Registered(keys, p)
    ensures Valid(t, keys, p, steps)
    ensures var h := p.desk.(script := script, delivered := []);
            var (d, ending) := G.Handle(t, keys, h, data);
            var p' := Exec(t, keys, p, steps);
            && p'.desk.guard == d.guard && p'.desk.seen == d.seen && p'.desk.counters == d.counters
            && p'.conns == p.conns[c := R.Closed] && p'.endings == p.endings + [ending]
            && p.accepted <= p'.accepted && p.delivered <= p'.delivered
            && d.delivered == Named(p'.accepted, p'.delivered[|p.delivered|..])
  {
    hide ReadMessage, ParseHello, G.Admit, G.Settle, R.OnHello, R.OnReading, R.Close, Follows;
    var h := p.desk.(script := script, delivered := []);
    var p1 := R.Apply(t, keys, p, R.Accept(c));
    OneStep(t, keys, p, R.Accept(c));
    AcceptFollows(p, p1, h, c);
    var (d, ending) := G.Connection(t, keys, h, data);
    var later: seq<R.Step>;
    match ReadMessage(data) {
      case (Err(e), _) =>
        later := [R.Hello(c, Err(e))];
        OneStep(t, keys, p1, later[0]);
        ErrorFollows(p1, h, c, G.Stream(e));
      case (Ok(m), rest) =>
        assert Readable(m);
        later := HelloAlone(t, keys, p1, h, c, m, rest);
    }
    var p2 := Exec(t, keys, p1, later);
    Joined(t, keys, p, [R.Accept(c)], later);
    steps := [R.Accept(c)] + later;
    FollowsTwice(p, p1, p2, c, R.AwaitHello, R.Closed, h, h, d, Some(ending));
    SettleSame(d, d, ending);
    FollowedTo(p, p2, h, d, c, ending);
  }

  lemma AcceptFollows(p: R.Process, p': R.Process, h: G.Desk, c: nat)
    requires Same(p.desk, h) && p' == p.(conns := p.conns[c := R.AwaitHello])
    ensures Follows(p, p', c, R.AwaitHello, h, h, None)
  {
    assert h.delivered == h.delivered + Named(p.accepted, []) && p.endings + [] == p.endings;
  }

  lemma FollowedTo(p: R.Process, p': R.Process, h: G.Desk, d: G.Desk, c: nat, ending: G.Ending)
    requires Follows(p, p', c, R.Closed, h, d, Some(ending)) && h.delivered == []
    ensures Same(p'.desk, G.Settle(d, ending)) && p'.conns == p.conns[c := R.Closed]
    ensures p'.endings == p.endings + [ending] && p.accepted <= p'.accepted && p.delivered <= p'.delivered
    ensures d.delivered == Named(p'.accepted, p'.delivered[|p.delivered|..])
  {
    hide G.Settle, Named;
  }
}
