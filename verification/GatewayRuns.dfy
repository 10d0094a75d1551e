/** One gateway process with its handler threads interleaved step by step. Everything the network
    delivers is a parameter of a step; the encryption table may grow between steps. */
module GatewayRuns {
  import opened Wrappers
  import opened Text
  import opened Protocol
  import opened Crypto
  import opened GatewayProcessing
  import opened Replay
  import opened Accounting
  import G = Gateway

  datatype Conn =
    | AwaitHello
    | Serving(deviceId: string)
    | Forwarding(deviceId: string, index: nat) // between the guard's check and the end of send_reading
    | Closed

  /** A reading the guard let through, and the encryption it came from. */
  datatype Accepted = Accepted(deviceId: string, sequence: int, reading: bytes, slot: Slot)

  /** A fallback activation, and the tag it rests on. */
  datatype Fallback = Fallback(deviceId: string, capabilities: seq<string>, slot: Slot)

  /** `presented` is every authenticated sequence that reached the guard, in order; `delivered`
      names accepted readings in the order their sends returned; `endings` says how handlers ended.
      The cloud channel of the process counts on the same metrics: `failedAttempts` are the
      establishment attempts it caught, `sessions` those that succeeded. */
  datatype Process = Process(
    desk: G.Desk,
    conns: map<nat, Conn>,
    presented: seq<Arrival>,
    accepted: seq<Accepted>,
    fallbacks: seq<Fallback>,
    delivered: seq<nat>,
    endings: seq<G.Ending>,
    failedAttempts: nat,
    sessions: nat)

  const START := Process(G.Desk(map[], {}, map[], [], []), map[], [], [], [], [], [], 0, 0)

  /** The device and sequence of each accepted reading. */
  function Arrivals(accepted: seq<Accepted>): seq<Arrival> {
    seq(|accepted|, i requires 0 <= i < |accepted| => Arrival(accepted[i].deviceId, accepted[i].sequence))
  }

  datatype Step =
    | Accept(c: nat)
    | Hello(c: nat, read: Result<Message>)
    | Reading(c: nat, read: Result<Message>)
    | Forwarded(c: nat)
    | ForwardFailed(c: nat, outcome: G.SendOutcome)
    | AttemptFailed
    | SessionEstablished

  ghost predicate Enabled(p: Process, step: Step) {
    match step
    case Accept(c) => c !in p.conns
    case Hello(c, read) => c in p.conns && p.conns[c].AwaitHello? && MayRead(read)
    case Reading(c, read) => c in p.conns && p.conns[c].Serving? && MayRead(read)
    case Forwarded(c) => c in p.conns && p.conns[c].Forwarding?
    case ForwardFailed(c, outcome) => c in p.conns && p.conns[c].Forwarding? && outcome != G.Sent
    case _ => true
  }

  function Close(p: Process, c: nat, desk: G.Desk, ending: G.Ending): Process {
    p.(desk := G.Settle(desk, ending), conns := p.conns[c := Closed], endings := p.endings + [ending])
  }

  function OnHello(t: Table, keys: map<string, Key>, p: Process, c: nat, m: Message): Process {
    match ParseHello(m)
    case Err(e) => Close(p, c, p.desk, G.BadHello(e))
    case Ok(hello) =>
      match G.Welcome(t, keys, p.desk, hello)
      case (d, Some(ending)) => Close(p, c, d, ending)
      case (d, None) =>
        p.(desk := d,
           conns := p.conns[c := Serving(hello.deviceId)],
           fallbacks := p.fallbacks
             + [Fallback(hello.deviceId, hello.capabilities, HelloSlot(keys[hello.deviceId], hello))])
  }

  /** What a message presents to the guard. */
  function Presents(t: Table, key: Key, deviceId: string, m: Message): seq<Arrival> {
    match DecryptLegacyMessage(t, m, key, deviceId)
    case Ok((_, sequence)) => [Arrival(deviceId, sequence)]
    case Err(_) => []
  }

  function OnReading(t: Table, key: Key, p: Process, c: nat, deviceId: string, m: Message): Process {
    var presented := p.presented + Presents(t, key, deviceId, m);
    match G.Screen(t, p.desk, m, key, deviceId)
    case (d, Drop) => p.(desk := d, presented := presented)
    case (d, Close(e)) => Close(p, c, d, G.BadReading(e))
    case (d, Keep(reading, sequence)) =>
      p.(desk := d,
         presented := presented,
         conns := p.conns[c := Forwarding(deviceId, |p.accepted|)],
         accepted := p.accepted + [Accepted(deviceId, sequence, reading, LegacySlot(key, m, deviceId, sequence))])
  }

  function Apply(t: Table, keys: map<string, Key>, p: Process, step: Step): Process
    requires Enabled(p, step)
    requires Registered(keys, p)
  {
    match step
    case Accept(c) => p.(conns := p.conns[c := AwaitHello])
    case Hello(c, Err(e)) => Close(p, c, p.desk, G.Stream(e))
    case Hello(c, Ok(m)) => OnHello(t, keys, p, c, m)
    case Reading(c, Err(e)) => Close(p, c, p.desk, G.Stream(e))
    case Reading(c, Ok(m)) => OnReading(t, keys[p.conns[c].deviceId], p, c, p.conns[c].deviceId, m)
    case Forwarded(c) =>
      p.(desk := p.desk.Inc(MessagesForwarded),
         conns := p.conns[c := Serving(p.conns[c].deviceId)],
         delivered := p.delivered + [p.conns[c].index])
    case ForwardFailed(c, outcome) =>
      Close(p, c, p.desk, G.Forwarding(if outcome == G.Refused then CryptoError else Unhandled))
    case AttemptFailed => p.(desk := p.desk.Inc(Errors), failedAttempts := p.failedAttempts + 1)
    case SessionEstablished => p.(desk := p.desk.Inc(MlkemSessionsEstablished), sessions := p.sessions + 1)
  }

  // ----- what every step keeps -----

  /** Only registered devices are served. */
  predicate Registered(keys: map<string, Key>, p: Process) {
    forall c | c in p.conns && (p.conns[c].Serving? || p.conns[c].Forwarding?) :: p.conns[c].deviceId in keys
  }

  /** Over all connections of the process, the accepted stream is the guard's filtering of what
      was presented. */
  ghost predicate Filtered(p: Process) {
    && p.desk.guard == Final(p.presented)
    && Arrivals(p.accepted) == Filter(p.presented)
  }

  /** So the accepted stream is the record highs of the presented one, and no sequence of a
      device is accepted twice. */
  lemma AcceptedAreRecordHighs(p: Process)
    requires Filtered(p)
    ensures Arrivals(p.accepted) == RecordHighs(p.presented, |p.presented|)
    ensures forall i, j | 0 <= i < j < |p.accepted| && p.accepted[i].deviceId == p.accepted[j].deviceId ::
              p.accepted[i].sequence < p.accepted[j].sequence
  {
    FilterIsRecordHighs(p.presented);
    FilterIncreases(p.presented);
    forall i, j | 0 <= i < j < |p.accepted| && p.accepted[i].deviceId == p.accepted[j].deviceId
      ensures p.accepted[i].sequence < p.accepted[j].sequence
    {
      assert Arrivals(p.accepted)[i].sequence < Arrivals(p.accepted)[j].sequence;
    }
  }

  predicate InFlight(p: Process) {
    forall c | c in p.conns && p.conns[c].Forwarding? ::
      p.conns[c].index < |p.accepted| && p.accepted[p.conns[c].index].deviceId == p.conns[c].deviceId
  }

  /** An accepted reading was encrypted under its device's registered key, for that device and
      that sequence. */
  ghost predicate AcceptedFrom(t: Table, keys: map<string, Key>, a: Accepted) {
    && a.deviceId in keys
    && a.slot.key == keys[a.deviceId]
    && a.slot.aad == LegacyAad(a.deviceId, a.sequence)
    && a.slot in t && t[a.slot] == a.reading
    && ParseReading(a.reading).Ok?
  }

  /** A fallback rests on a tag by the device's registered key over exactly those claims, with
      the legacy capability present and the modern one absent. */
  ghost predicate FallbackFrom(t: Table, keys: map<string, Key>, f: Fallback) {
    && f.deviceId in keys
    && f.slot.key == keys[f.deviceId]
    && f.slot.aad == HelloClaims(f.deviceId, f.capabilities)
    && f.slot in t
    && CAP_CHACHA20_POLY1305 in f.capabilities && CAP_MLKEM_768 !in f.capabilities
  }

  ghost predicate Grounded(t: Table, keys: map<string, Key>, p: Process) {
    && (forall i | 0 <= i < |p.accepted| :: AcceptedFrom(t, keys, p.accepted[i]))
    && (forall i | 0 <= i < |p.fallbacks| :: FallbackFrom(t, keys, p.fallbacks[i]))
  }

  ghost predicate Inv(t: Table, keys: map<string, Key>, p: Process) {
    Registered(keys, p) && Filtered(p) && InFlight(p) && Grounded(t, keys, p)
  }

  /** Accepting one more reading above everything its device had. */
  lemma AppendKeepsInv(t: Table, keys: map<string, Key>, p: Process, c: nat, d: G.Desk, a: Accepted)
    requires Inv(t, keys, p) && c in p.conns && AcceptedFrom(t, keys, a) && a.deviceId in keys
    requires Accepts(p.desk.guard, a.deviceId, a.sequence) && d.guard == Record(p.desk.guard, a.deviceId, a.sequence)
    ensures Inv(t, keys, p.(desk := d, presented := p.presented + [Arrival(a.deviceId, a.sequence)],
                            conns := p.conns[c := Forwarding(a.deviceId, |p.accepted|)],
                            accepted := p.accepted + [a]))
  {
    hide AcceptedFrom, FallbackFrom, Accepts, Record, Final, Filter;
    FilterSnoc(p.presented, Arrival(a.deviceId, a.sequence));
    assert Arrivals(p.accepted + [a]) == Arrivals(p.accepted) + [Arrival(a.deviceId, a.sequence)];
  }

  /** A stale sequence changes nothing but the history of what was presented. */
  lemma StaleKeepsInv(t: Table, keys: map<string, Key>, p: Process, d: G.Desk, a: Arrival)
    requires Inv(t, keys, p) && d.guard == p.desk.guard
    requires !Accepts(p.desk.guard, a.device, a.sequence)
    ensures Inv(t, keys, p.(desk := d, presented := p.presented + [a]))
  {
    hide AcceptedFrom, FallbackFrom, Accepts, Final, Filter;
    FilterSnoc(p.presented, a);
    assert Filter(p.presented) + [] == Filter(p.presented);
  }

  /** Steps that leave the guard and the histories alone, and only move one connection. */
  lemma MoveKeepsInv(t: Table, keys: map<string, Key>, p: Process, c: nat, d: G.Desk, conn: Conn)
    requires Inv(t, keys, p) && d.guard == p.desk.guard
    requires !conn.Forwarding? && (conn.Serving? ==> conn.deviceId in keys)
    ensures Inv(t, keys, p.(desk := d, conns := p.conns[c := conn]))
  {
    hide AcceptedFrom, FallbackFrom, Final, Filter;
  }

  lemma SettleKeepsGuard(desk: G.Desk, ending: G.Ending)
    ensures G.Settle(desk, ending).guard == desk.guard
  {
  }

  lemma CloseKeepsInv(t: Table, keys: map<string, Key>, p: Process, c: nat, d: G.Desk, ending: G.Ending)
    requires Inv(t, keys, p) && d.guard == p.desk.guard
    ensures Inv(t, keys, Close(p, c, d, ending))
  {
    hide Inv, G.Settle;
    SettleKeepsGuard(d, ending);
    MoveKeepsInv(t, keys, p, c, G.Settle(d, ending), Closed);
    SameCore(t, keys, p.(desk := G.Settle(d, ending), conns := p.conns[c := Closed]), Close(p, c, d, ending));
  }

  /** Only the guard, the connections and the grounded histories matter. */
  lemma SameCore(t: Table, keys: map<string, Key>, p: Process, p': Process)
    requires Inv(t, keys, p) && p'.desk.guard == p.desk.guard && p'.conns == p.conns
    requires p'.presented == p.presented && p'.accepted == p.accepted && p'.fallbacks == p.fallbacks
    ensures Inv(t, keys, p')
  {
    hide AcceptedFrom, FallbackFrom, Final, Filter;
  }

  lemma ReadingKeepsInv(t: Table, keys: map<string, Key>, p: Process, c: nat, deviceId: string, m: Message)
    requires Inv(t, keys, p) && c in p.conns && p.conns[c] == Serving(deviceId) && deviceId in keys
    ensures Inv(t, keys, OnReading(t, keys[deviceId], p, c, deviceId, m))
  {
    hide G.Screen, Inv, Close, ParseReading, LegacyAad, LegacySlot, DecryptLegacyMessage, Accepts, Record;
    G.KeptIsAuthentic(t, p.desk, m, keys[deviceId], deviceId);
    match G.Screen(t, p.desk, m, keys[deviceId], deviceId)
    case (d, Drop) =>
      if Presents(t, keys[deviceId], deviceId, m) == [] {
        MoveKeepsInv(t, keys, p, c, d, Serving(deviceId));
        assert p.conns[c := Serving(deviceId)] == p.conns && p.presented + [] == p.presented;
      } else {
        StaleKeepsInv(t, keys, p, d, Presents(t, keys[deviceId], deviceId, m)[0]);
      }
    case (d, Close(e)) => CloseKeepsInv(t, keys, p, c, d, G.BadReading(e));
    case (d, Keep(reading, sequence)) =>
      var a := Accepted(deviceId, sequence, reading, LegacySlot(keys[deviceId], m, deviceId, sequence));
      LegacySlotNames(keys[deviceId], m, deviceId, sequence);
      AppendKeepsInv(t, keys, p, c, d, a);
  }

  lemma LegacySlotNames(key: Key, m: Message, deviceId: string, sequence: int)
    ensures LegacySlot(key, m, deviceId, sequence).key == key
    ensures LegacySlot(key, m, deviceId, sequence).aad == LegacyAad(deviceId, sequence)
  {
  }

  lemma HelloKeepsInv(t: Table, keys: map<string, Key>, p: Process, c: nat, m: Message)
    requires Inv(t, keys, p) && c in p.conns && p.conns[c].AwaitHello?
    ensures Inv(t, keys, OnHello(t, keys, p, c, m))
  {
    hide Inv, Close, ParseHello, G.Detect, EvaluateHello;
    match ParseHello(m)
    case Err(e) => CloseKeepsInv(t, keys, p, c, p.desk, G.BadHello(e));
    case Ok(hello) =>
      DetectKeepsGuard(p.desk, hello.deviceId);
      match G.Welcome(t, keys, p.desk, hello)
      case (d, Some(ending)) => CloseKeepsInv(t, keys, p, c, d, ending);
      case (d, None) =>
        WelcomedFrom(t, keys, p.desk, hello);
        MoveKeepsInv(t, keys, p, c, d, Serving(hello.deviceId));
        FallbackKeepsInv(t, keys, p.(desk := d, conns := p.conns[c := Serving(hello.deviceId)]),
                         Fallback(hello.deviceId, hello.capabilities, HelloSlot(keys[hello.deviceId], hello)));
  }

  lemma DetectKeepsGuard(desk: G.Desk, deviceId: string)
    ensures G.Detect(desk, deviceId).guard == desk.guard
  {
  }

  lemma WelcomedFrom(t: Table, keys: map<string, Key>, desk: G.Desk, hello: GatewayProcessing.Hello)
    requires G.Welcome(t, keys, desk, hello).1.None?
    ensures FallbackFrom(t, keys, Fallback(hello.deviceId, hello.capabilities, HelloSlot(keys[hello.deviceId], hello)))
  {
    var key := keys[hello.deviceId];
    FallbackIff(t, hello, Some(key));
    VerifiedTagFilled(t, key, hello.authNonce, hello.authTag, HelloClaims(hello.deviceId, hello.capabilities));
  }

  lemma FallbackKeepsInv(t: Table, keys: map<string, Key>, p: Process, f: Fallback)
    requires Inv(t, keys, p) && FallbackFrom(t, keys, f)
    ensures Inv(t, keys, p.(fallbacks := p.fallbacks + [f]))
  {
    hide AcceptedFrom, FallbackFrom, Final, Filter;
  }

  lemma StepKeepsInv(t: Table, keys: map<string, Key>, p: Process, step: Step)
    requires Inv(t, keys, p) && Enabled(p, step)
    ensures Inv(t, keys, Apply(t, keys, p, step))
  {
    match step
    case Accept(c) => MoveKeepsInv(t, keys, p, c, p.desk, AwaitHello);
    case Hello(c, Err(e)) => CloseKeepsInv(t, keys, p, c, p.desk, G.Stream(e));
    case Hello(c, Ok(m)) => HelloKeepsInv(t, keys, p, c, m);
    case Reading(c, Err(e)) => CloseKeepsInv(t, keys, p, c, p.desk, G.Stream(e));
    case Reading(c, Ok(m)) => ReadingKeepsInv(t, keys, p, c, p.conns[c].deviceId, m);
    case Forwarded(c) =>
      var moved := p.(desk := p.desk.Inc(MessagesForwarded), conns := p.conns[c := Serving(p.conns[c].deviceId)]);
      MoveKeepsInv(t, keys, p, c, p.desk.Inc(MessagesForwarded), Serving(p.conns[c].deviceId));
      SameCore(t, keys, moved, Apply(t, keys, p, step));
    case ForwardFailed(c, outcome) =>
      CloseKeepsInv(t, keys, p, c, p.desk, G.Forwarding(if outcome == G.Refused then CryptoError else Unhandled));
    case _ => SameCore(t, keys, p, Apply(t, keys, p, step));
  }

  // ----- the books -----

  /** The handlers inside `send_reading`. */
  function Sending(conns: map<nat, Conn>): set<nat> {
    set c | c in conns && conns[c].Forwarding?
  }

  function Devices(fallbacks: seq<Fallback>): set<string> {
    set i | 0 <= i < |fallbacks| :: fallbacks[i].deviceId
  }

  /** At every moment: every message received was processed, dropped, or closed its connection; every
      processed reading was forwarded, failed to be, or is inside `send_reading`; every counted
      ending and every failed attempt of the channel is one error; every activation, detected device
      and established session was counted once. */
  ghost predicate Ledger(p: Process) {
    && p.desk.Tally(MessagesReceived) + CountIf(p.endings, G.IS_DECLINED)
    == p.desk.Tally(MessagesProcessed) + p.desk.Tally(MessagesRejected) + CountIf(p.endings, G.IS_BAD_READING)
    && p.desk.Tally(MessagesProcessed) == |p.accepted|
    && p.desk.Tally(MessagesProcessed)
    == p.desk.Tally(MessagesForwarded) + CountIf(p.endings, G.IS_FORWARDING) + |Sending(p.conns)|
    && p.desk.Tally(MessagesForwarded) == |p.delivered|
    && p.desk.Tally(Errors) == CountIf(p.endings, G.IS_COUNTED) + p.failedAttempts
    && p.desk.Tally(FallbackActivations) == |p.fallbacks|
    && p.desk.Tally(LegacyDevicesDetected) == |p.desk.seen| && p.desk.seen == Devices(p.fallbacks)
    && p.desk.Tally(MlkemSessionsEstablished) == p.sessions
  }

  lemma SendingMoves(conns: map<nat, Conn>, c: nat, conn: Conn)
    ensures |Sending(conns[c := conn])| + One(c in conns && conns[c].Forwarding?)
         == |Sending(conns)| + One(conn.Forwarding?)
  {
    var rest := Sending(conns) - {c};
    assert Sending(conns) == if c in conns && conns[c].Forwarding? then rest + {c} else rest;
    assert Sending(conns[c := conn]) == if conn.Forwarding? then rest + {c} else rest;
  }

  /** A handler ends: its books are settled whatever ended it. */
  lemma CloseKeepsLedger(p: Process, c: nat, d: G.Desk, e: G.Ending)
    requires Ledger(p) && c in p.conns && d.seen == p.desk.seen
    requires forall k :: d.Tally(k) == p.desk.Tally(k) + One(k == MessagesReceived && e.BadReading?)
                                       + One(k == MessagesRejected && e.Declined?)
    requires e.Forwarding? <==> p.conns[c].Forwarding?
    ensures Ledger(Close(p, c, d, e))
  {
    hide CountIf, Count, Devices, Sending, G.Settle, G.Counted;
    G.SettleTallies(d, e);
    SendingMoves(p.conns, c, Closed);
    CountSnoc(p.endings, e, G.IS_DECLINED);
    CountSnoc(p.endings, e, G.IS_BAD_READING);
    CountSnoc(p.endings, e, G.IS_FORWARDING);
    CountSnoc(p.endings, e, G.IS_COUNTED);
  }

  lemma HelloKeepsLedger(t: Table, keys: map<string, Key>, p: Process, c: nat, m: Message)
    requires Ledger(p) && c in p.conns && p.conns[c].AwaitHello?
    ensures Ledger(OnHello(t, keys, p, c, m))
  {
    hide CountIf, Count, Sending, Close, ParseHello, G.Welcome, HelloSlot, Ledger;
    match ParseHello(m)
    case Err(e) => CloseKeepsLedger(p, c, p.desk, G.BadHello(e));
    case Ok(hello) =>
      G.AdmissionMeaning(t, keys, p.desk, hello);
      G.WelcomeBalance(t, keys, p.desk, hello);
      match G.Welcome(t, keys, p.desk, hello)
      case (d, Some(ending)) => CloseKeepsLedger(p, c, d, ending);
      case (d, None) =>
        var slot := HelloSlot(keys[hello.deviceId], hello);
        FallbackKeepsLedger(p, c, d, Fallback(hello.deviceId, hello.capabilities, slot));
  }

  lemma DevicesSnoc(fallbacks: seq<Fallback>, f: Fallback)
    ensures Devices(fallbacks + [f]) == Devices(fallbacks) + {f.deviceId}
  {
    var more := fallbacks + [f];
    assert more[|fallbacks|] == f;
    assert forall i | 0 <= i < |fallbacks| :: more[i] == fallbacks[i];
    forall d | d in Devices(fallbacks)
      ensures d in Devices(more)
    {
      var i :| 0 <= i < |fallbacks| && fallbacks[i].deviceId == d;
      assert more[i].deviceId == d;
    }
  }

  lemma OneMore(seen: set<string>, d: string)
    ensures |seen + {d}| == |seen| + One(d !in seen)
  {
    if d in seen {
      assert seen + {d} == seen;
    }
  }

  lemma FallbackKeepsLedger(p: Process, c: nat, d: G.Desk, f: Fallback)
    requires Ledger(p) && c in p.conns && p.conns[c].AwaitHello?
    requires d.seen == p.desk.seen + {f.deviceId}
    requires forall k :: d.Tally(k) == p.desk.Tally(k)
               + One(k == FallbackActivations || (k == LegacyDevicesDetected && f.deviceId !in p.desk.seen))
    ensures Ledger(p.(desk := d, conns := p.conns[c := Serving(f.deviceId)], fallbacks := p.fallbacks + [f]))
  {
    hide CountIf, Count, Sending;
    SendingMoves(p.conns, c, Serving(f.deviceId));
    DevicesSnoc(p.fallbacks, f);
    hide Devices;
    OneMore(p.desk.seen, f.deviceId);
    assert d.Tally(LegacyDevicesDetected) == |d.seen|;
  }

  lemma ReadingKeepsLedger(t: Table, key: Key, p: Process, c: nat, deviceId: string, m: Message)
    requires Ledger(p) && c in p.conns && p.conns[c] == Serving(deviceId)
    ensures Ledger(OnReading(t, key, p, c, deviceId, m))
  {
    hide CountIf, Count, Devices, Sending, Close, G.Screen, Presents, LegacySlot;
    G.ScreenTallies(t, p.desk, m, key, deviceId);
    G.KeptIsAuthentic(t, p.desk, m, key, deviceId);
    var (d, r) := G.Screen(t, p.desk, m, key, deviceId);
    if r.Close? {
      CloseKeepsLedger(p, c, d, G.BadReading(r.error));
    } else if r.Keep? {
      SendingMoves(p.conns, c, Forwarding(deviceId, |p.accepted|));
    }
  }

  /** Every step of every thread keeps the books. */
  lemma StepKeepsLedger(t: Table, keys: map<string, Key>, p: Process, step: Step)
    requires Ledger(p) && Enabled(p, step) && Registered(keys, p)
    ensures Ledger(Apply(t, keys, p, step))
  {
    hide CountIf, Count, Devices, Sending, Close, OnHello, OnReading, Bump;
    match step
    case Accept(c) => SendingMoves(p.conns, c, AwaitHello);
    case Hello(c, Err(e)) => CloseKeepsLedger(p, c, p.desk, G.Stream(e));
    case Hello(c, Ok(m)) => HelloKeepsLedger(t, keys, p, c, m);
    case Reading(c, Err(e)) => CloseKeepsLedger(p, c, p.desk, G.Stream(e));
    case Reading(c, Ok(m)) => ReadingKeepsLedger(t, keys[p.conns[c].deviceId], p, c, p.conns[c].deviceId, m);
    case Forwarded(c) => SendingMoves(p.conns, c, Serving(p.conns[c].deviceId));
    case ForwardFailed(c, outcome) =>
      CloseKeepsLedger(p, c, p.desk, G.Forwarding(if outcome == G.Refused then CryptoError else Unhandled));
    case _ =>
  }

  /** What was grounded stays so while the table grows. */
  lemma GrowthKeepsInv(t: Table, t': Table, keys: map<string, Key>, p: Process)
    requires Inv(t, keys, p)
    requires forall slot | slot in t :: slot in t' && t'[slot] == t[slot]
    ensures Inv(t', keys, p)
  {
    hide ParseReading, LegacyAad, HelloClaims, Final, Filter;
  }

  lemma StartInv(t: Table, keys: map<string, Key>)
    ensures Inv(t, keys, START) && Ledger(START)
  {
  }
}
