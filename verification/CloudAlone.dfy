/** The interleaved cloud process refined by the server's own code: whatever a gateway sends, one
    handler that runs alone is a run of the process, and it does to the process exactly what
    `HandleConnection` does to the server. */
module CloudAlone {
  import opened Wrappers
  import opened Text
  import opened Protocol
  import opened Crypto
  import opened CloudProcessing
  import C = Cloud
  import R = CloudRuns

  // ----- runs of the process -----

  ghost predicate Valid(t: Table, kem: KemTable, keys: map<string, Key>, p: R.Process, steps: seq<R.Step>)
    decreases |steps|
  {
    steps == []
    || (R.Enabled(p, steps[0]) && R.InFlight(p) && Valid(t, kem, keys, R.Apply(t, kem, keys, p, steps[0]), steps[1..]))
  }

  ghost function Exec(t: Table, kem: KemTable, keys: map<string, Key>, p: R.Process, steps: seq<R.Step>): R.Process
    requires Valid(t, kem, keys, p, steps)
    decreases |steps|
  {
    if steps == [] then p else Exec(t, kem, keys, R.Apply(t, kem, keys, p, steps[0]), steps[1..])
  }

  lemma {:induction false} Joined(t: Table, kem: KemTable, keys: map<string, Key>, p: R.Process, one: seq<R.Step>,
                                  other: seq<R.Step>)
    requires Valid(t, kem, keys, p, one) && Valid(t, kem, keys, Exec(t, kem, keys, p, one), other)
    ensures Valid(t, kem, keys, p, one + other)
    ensures Exec(t, kem, keys, p, one + other) == Exec(t, kem, keys, Exec(t, kem, keys, p, one), other)
    decreases |one|
  {
    hide R.Apply, R.Enabled, R.InFlight;
    if one == [] {
      assert one + other == other;
    } else {
      assert (one + other)[1..] == one[1..] + other;
      Joined(t, kem, keys, R.Apply(t, kem, keys, p, one[0]), one[1..], other);
    }
  }

  /** From p to p' the handler of connection c went to `conn` and left this desk and these endings. */
  ghost predicate Went(t: Table, keys: map<string, Key>, p: R.Process, p': R.Process, c: nat, conn: R.Conn,
                       desk: C.Desk, endings: seq<C.Ending>)
  {
    && p'.desk == desk && p'.conns == p.conns[c := conn] && p'.endings == p.endings + endings
    && R.Inv(t, keys, p')
  }

  lemma WentTwice(t: Table, keys: map<string, Key>, p: R.Process, p1: R.Process, p2: R.Process, c: nat, conn1: R.Conn,
                  conn2: R.Conn, desk1: C.Desk, desk2: C.Desk, endings1: seq<C.Ending>, endings2: seq<C.Ending>)
    requires Went(t, keys, p, p1, c, conn1, desk1, endings1) && Went(t, keys, p1, p2, c, conn2, desk2, endings2)
    ensures Went(t, keys, p, p2, c, conn2, desk2, endings1 + endings2)
  {
    hide R.Inv;
    assert p.conns[c := conn1][c := conn2] == p.conns[c := conn2];
  }

  /** A step keeps the invariant, so the next one is defined. */
  lemma Step(t: Table, kem: KemTable, keys: map<string, Key>, p: R.Process, step: R.Step)
    requires R.Inv(t, keys, p) && R.Enabled(p, step)
    ensures R.InFlight(p) && Valid(t, kem, keys, p, [step])
    ensures Exec(t, kem, keys, p, [step]) == R.Apply(t, kem, keys, p, step)
    ensures R.Inv(t, keys, R.Apply(t, kem, keys, p, step))
  {
    hide R.Apply, R.Enabled, R.Filtered, R.StoredOnce, R.Grounded, R.RegistryInv;
    R.StepKeepsInv(t, kem, keys, p, step);
  }

  // ----- one handler alone -----

  /** One turn of the receive loop is one step of the process, or two when a reading is stored. */
  lemma TurnAlone(t: Table, kem: KemTable, keys: map<string, Key>, p: R.Process, c: nat, live: R.Conn, m: Message)
    returns (steps: seq<R.Step>)
    requires c in p.conns && p.conns[c] == live && live.Live? && R.Inv(t, keys, p) && Readable(m)
    ensures Valid(t, kem, keys, p, steps)
    ensures var (d, ending) := C.OnMessage(t, p.desk, m, live.key, live.sessionId);
            var p' := Exec(t, kem, keys, p, steps);
            if ending.Some?
            then Went(t, keys, p, p', c, R.Evicting(live.sessionId), C.Settle(d, ending.value), [ending.value])
            else Went(t, keys, p, p', c, live, d, [])
  {
    hide C.Screen, C.Settle, C.Commit, Readable, ReceivedSlot, C.Presents, R.Inv, R.InFlight;
    var reading := R.Reading(c, Ok(m));
    Step(t, kem, keys, p, reading);
    steps := [reading];
    if C.Screen(t, p.desk, m, live.key, live.sessionId).1.Keep? {
      var p1 := R.Apply(t, kem, keys, p, reading);
      Step(t, kem, keys, p1, R.Store(c));
      Joined(t, kem, keys, p, [reading], [R.Store(c)]);
      steps := [reading] + [R.Store(c)];
    }
  }

  lemma {:induction false} ReceiveAlone(t: Table, kem: KemTable, keys: map<string, Key>, p: R.Process, c: nat,
                                        live: R.Conn, data: bytes)
    returns (steps: seq<R.Step>)
    requires c in p.conns && p.conns[c] == live && live.Live? && R.Inv(t, keys, p)
    ensures Valid(t, kem, keys, p, steps)
    ensures var (d, ending) := C.Receive(t, p.desk, data, live.key, live.sessionId);
            Went(t, keys, p, Exec(t, kem, keys, p, steps), c, R.Evicting(live.sessionId), C.Settle(d, ending), [ending])
    decreases |data|
  {
    hide ReadMessage, C.OnMessage, C.Settle, R.Inv, R.InFlight, Readable;
    match ReadMessage(data)
    case (Err(e), _) =>
      var step := R.Reading(c, Err(e));
      Step(t, kem, keys, p, step);
      steps := [step];
    case (Ok(m), rest) =>
      ReadIsReadable(data);
      steps := TurnAlone(t, kem, keys, p, c, live, m);
      var p1 := Exec(t, kem, keys, p, steps);
      match C.OnMessage(t, p.desk, m, live.key, live.sessionId)
      case (d, Some(ending)) =>
      case (d, None) =>
        var later := ReceiveAlone(t, kem, keys, p1, c, live, rest);
        var (d2, ending) := C.Receive(t, d, rest, live.key, live.sessionId);
        WentTwice(t, keys, p, p1, Exec(t, kem, keys, p1, later), c, live, R.Evicting(live.sessionId), d,
                  C.Settle(d2, ending), [], [ending]);
        assert [] + [ending] == [ending];
        Joined(t, kem, keys, p, steps, later);
        steps := steps + later;
  }

  lemma ReadIsReadable(data: bytes)
    ensures ReadMessage(data).0.Ok? ==> Readable(ReadMessage(data).0.value)
  {
    hide ReadMessage;
  }

  /** Where a handler ends. */
  function LastConn(established: C.Establishment, registered: Option<string>): R.Conn {
    match (established, registered)
    case (Live(sessionId, _, _), _) => R.Done(Some(sessionId))
    case (_, Some(sessionId)) => R.Stranded(sessionId)
    case (_, None) => R.Done(None)
  }

  /** The session id the handler has registered, if it got that far. */
  function RegisteredId(t: Table, keys: map<string, Key>, data: bytes, replies: C.Replies): Option<string> {
    var (first, rest) := ReadMessage(data);
    var second := ReadMessage(rest).0;
    if first.Ok? && C.OnRequest(t, keys, first.value).Ok? && replies.pubkeySent && second.Ok?
       && ParseMlkemEncaps(second.value).Ok?
    then Some(ParseMlkemEncaps(second.value).value.sessionId)
    else None
  }

  /** The handshake is one to four steps of the process, and ends the handler or leaves it serving. */
  lemma EstablishAlone(t: Table, kem: KemTable, keys: map<string, Key>, p: R.Process, c: nat, data: bytes,
                       replies: C.Replies)
    returns (steps: seq<R.Step>, gatewayId: string)
    requires c !in p.conns && R.Inv(t, keys, p)
    ensures Valid(t, kem, keys, p, steps)
    ensures var (d, established) := C.Establish(t, kem, keys, p.desk, data, replies);
            var p' := Exec(t, kem, keys, p, steps);
            match established
            case Failed(ending) =>
              Went(t, keys, p, p', c, LastConn(established, RegisteredId(t, keys, data, replies)), C.Settle(d, ending),
                   [ending])
            case Live(sessionId, key, _) => Went(t, keys, p, p', c, R.Live(sessionId, key, gatewayId), d, [])
  {
    hide ReadMessage, C.OnRequest, C.OnEncaps, C.Settle, R.Inv, R.InFlight, Readable, ParseMlkemEncaps, Went;
    var (first, rest) := ReadMessage(data);
    ReadIsReadable(data);
    ReadIsReadable(rest);
    steps := RequestAlone(t, kem, keys, p, c, first, replies.pubkeySent);
    gatewayId := "";
    if first.Ok? && C.OnRequest(t, keys, first.value).Ok? && replies.pubkeySent {
      gatewayId := C.OnRequest(t, keys, first.value).value;
      var second := ReadMessage(rest).0;
      var p1 := Exec(t, kem, keys, p, steps);
      WentConn(t, keys, p, p1, c, R.AwaitEncaps(gatewayId), p.desk, []);
      var later := EncapsAlone(t, kem, keys, p1, c, gatewayId, second, replies.establishedSent);
      Joined(t, kem, keys, p, steps, later);
      steps := steps + later;
      var (conn, desk, endings) := EncapsTo(kem, p.desk, second, gatewayId, replies.establishedSent);
      WentTwice(t, keys, p, p1, Exec(t, kem, keys, p1, later), c, R.AwaitEncaps(gatewayId), conn, p.desk, desk, [],
                endings);
      assert [] + endings == endings;
      if second.Ok? {
        C.EncapsMeaning(kem, p.desk, second.value, gatewayId);
      }
    }
  }

  lemma WentConn(t: Table, keys: map<string, Key>, p: R.Process, p': R.Process, c: nat, conn: R.Conn, desk: C.Desk,
                 endings: seq<C.Ending>)
    requires Went(t, keys, p, p', c, conn, desk, endings)
    ensures c in p'.conns && p'.conns[c] == conn && p'.desk == desk && R.Inv(t, keys, p')
  {
    hide R.Inv;
  }

  /** What the first message leads to: the handler's state, the desk and the endings. */
  function RequestTo(t: Table, keys: map<string, Key>, desk: C.Desk, read: Result<Message>, sent: bool)
    : (R.Conn, C.Desk, seq<C.Ending>)
  {
    match read
    case Err(e) => (R.Done(None), C.Settle(desk, C.Stream(e)), [C.Stream(e)])
    case Ok(m) =>
      match C.OnRequest(t, keys, m)
      case Err(e) => (R.Done(None), C.Settle(desk, C.Handshake(e)), [C.Handshake(e)])
      case Ok(gatewayId) =>
        if sent then (R.AwaitEncaps(gatewayId), desk, [])
        else (R.Done(None), C.Settle(desk, C.Stream(OsError)), [C.Stream(OsError)])
  }

  lemma RequestAlone(t: Table, kem: KemTable, keys: map<string, Key>, p: R.Process, c: nat, read: Result<Message>,
                     sent: bool)
    returns (steps: seq<R.Step>)
    requires c !in p.conns && R.Inv(t, keys, p) && MayRead(read)
    ensures Valid(t, kem, keys, p, steps)
    ensures var (conn, desk, endings) := RequestTo(t, keys, p.desk, read, sent);
            Went(t, keys, p, Exec(t, kem, keys, p, steps), c, conn, desk, endings)
  {
    hide C.OnRequest, C.Settle, R.Inv, R.InFlight, Readable, RequestSlot;
    Step(t, kem, keys, p, R.Accept(c));
    var p1 := R.Apply(t, kem, keys, p, R.Accept(c));
    var request := R.Request(c, read, sent);
    Step(t, kem, keys, p1, request);
    Joined(t, kem, keys, p, [R.Accept(c)], [request]);
    steps := [R.Accept(c)] + [request];
  }

  /** And the second. */
  function EncapsTo(kem: KemTable, desk: C.Desk, read: Result<Message>, gatewayId: string, sent: bool)
    : (R.Conn, C.Desk, seq<C.Ending>)
  {
    match read
    case Err(e) => (R.Done(None), C.Settle(desk, C.Stream(e)), [C.Stream(e)])
    case Ok(m) =>
      match C.OnEncaps(kem, desk, m, gatewayId)
      case (d, Err(e)) => (R.Done(None), C.Settle(d, C.Handshake(e)), [C.Handshake(e)])
      case (d, Ok((sessionId, key))) =>
        if sent then (R.Live(sessionId, key, gatewayId), d, [])
        else (R.Stranded(sessionId), C.Settle(d, C.Stream(OsError)), [C.Stream(OsError)])
  }

  lemma EncapsAlone(t: Table, kem: KemTable, keys: map<string, Key>, p: R.Process, c: nat, gatewayId: string,
                    read: Result<Message>, sent: bool)
    returns (steps: seq<R.Step>)
    requires c in p.conns && p.conns[c] == R.AwaitEncaps(gatewayId) && R.Inv(t, keys, p) && MayRead(read)
    ensures Valid(t, kem, keys, p, steps)
    ensures var (conn, desk, endings) := EncapsTo(kem, p.desk, read, gatewayId, sent);
            Went(t, keys, p, Exec(t, kem, keys, p, steps), c, conn, desk, endings)
  {
    hide C.OnEncaps, C.Settle, R.Inv, R.InFlight, Readable;
    var encaps := R.Encaps(c, read);
    Step(t, kem, keys, p, encaps);
    steps := [encaps];
    if read.Ok? && C.OnEncaps(kem, p.desk, read.value, gatewayId).1.Ok? {
      var p1 := R.Apply(t, kem, keys, p, encaps);
      Step(t, kem, keys, p1, R.Reply(c, sent));
      Joined(t, kem, keys, p, [encaps], [R.Reply(c, sent)]);
      steps := [encaps] + [R.Reply(c, sent)];
    }
  }

  /** For any process the runs can reach and any bytes, one more connection that is handled without
      interleaving is a run of the process that leaves the desk and the ending of the server's own
      code, and the handler evicted, stranded or done. */
  lemma HandleIsARun(t: Table, kem: KemTable, keys: map<string, Key>, p: R.Process, c: nat, data: bytes,
                     replies: C.Replies)
    returns (steps: seq<R.Step>)
    requires c !in p.conns && R.Inv(t, keys, p)
    ensures Valid(t, kem, keys, p, steps)
    ensures var (d, ending) := C.Handle(t, kem, keys, p.desk, data, replies);
            var established := C.Establish(t, kem, keys, p.desk, data, replies).1;
            var p' := Exec(t, kem, keys, p, steps);
            && p'.desk == d && p'.endings == p.endings + [ending]
            && p'.conns == p.conns[c := LastConn(established, RegisteredId(t, keys, data, replies))]
            && R.Inv(t, keys, p')
  {
    hide C.Establish, C.Receive, C.Settle, R.Inv, R.InFlight, RegisteredId, Went;
    var gatewayId: string;
    steps, gatewayId := EstablishAlone(t, kem, keys, p, c, data, replies);
    var p1 := Exec(t, kem, keys, p, steps);
    match C.Establish(t, kem, keys, p.desk, data, replies)
    case (d, Failed(ending)) =>
      var last := LastConn(C.Establish(t, kem, keys, p.desk, data, replies).1, RegisteredId(t, keys, data, replies));
      WentFrom(t, keys, p, p1, c, last, C.Settle(d, ending), [ending]);
    case (d, Live(sessionId, key, rest)) =>
      var live := R.Live(sessionId, key, gatewayId);
      WentConn(t, keys, p, p1, c, live, d, []);
      var later := ReceiveAlone(t, kem, keys, p1, c, live, rest);
      Joined(t, kem, keys, p, steps, later);
      var (received, ending) := C.Receive(t, d, rest, key, sessionId);
      var p2 := Exec(t, kem, keys, p1, later);
      WentTwice(t, keys, p, p1, p2, c, live, R.Evicting(sessionId), d, C.Settle(received, ending), [], [ending]);
      steps := steps + later;
      var evict := EvictAlone(t, kem, keys, p, p2, c, sessionId, C.Settle(received, ending), [] + [ending]);
      Joined(t, kem, keys, p, steps, evict);
      steps := steps + evict;
      assert [] + [ending] == [ending];
  }

  lemma WentFrom(t: Table, keys: map<string, Key>, p: R.Process, p': R.Process, c: nat, conn: R.Conn, desk: C.Desk,
                 endings: seq<C.Ending>)
    requires Went(t, keys, p, p', c, conn, desk, endings)
    ensures p'.desk == desk && p'.conns == p.conns[c := conn] && p'.endings == p.endings + endings && R.Inv(t, keys, p')
  {
    hide R.Inv;
  }

  lemma EvictAlone(t: Table, kem: KemTable, keys: map<string, Key>, p: R.Process, p1: R.Process, c: nat,
                   sessionId: string, desk: C.Desk, endings: seq<C.Ending>)
    returns (steps: seq<R.Step>)
    requires Went(t, keys, p, p1, c, R.Evicting(sessionId), desk, endings)
    ensures Valid(t, kem, keys, p1, steps)
    ensures var p' := Exec(t, kem, keys, p1, steps);
            && p'.desk == desk.(registry := desk.registry - {sessionId})
            && p'.conns == p.conns[c := R.Done(Some(sessionId))]
            && p'.endings == p.endings + endings && R.Inv(t, keys, p')
  {
    hide R.Inv, R.InFlight;
    Step(t, kem, keys, p1, R.Evict(c));
    steps := [R.Evict(c)];
    assert p.conns[c := R.Evicting(sessionId)][c := R.Done(Some(sessionId))] == p.conns[c := R.Done(Some(sessionId))];
  }
}
