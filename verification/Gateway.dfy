/** The gateway's device server (gateway/gateway.py): admission, replay filter, forwarding, and
    the counters each outcome moves. */
module Gateway {
  import opened Wrappers
  import opened Text
  import opened Json
  import opened Protocol
  import opened Crypto
  import opened GatewayProcessing
  import opened Replay
  import opened Accounting

  /** How `send_reading` ends for the calling handler: it returns, it raises CryptoError, or the
      racing session change kills the thread with an error no handler names. */
  datatype SendOutcome = Sent | Refused | Died

  function NextOutcome(script: seq<SendOutcome>): SendOutcome {
    if script == [] then Sent else script[0]
  }

  function LaterOutcomes(script: seq<SendOutcome>): seq<SendOutcome> {
    if script == [] then [] else script[1..]
  }

  /** The cloud channel as one handler sees it; the script is whatever the session does. */
  class ForwardPort {
    var script: seq<SendOutcome>
    var delivered: seq<bytes>

    constructor (script: seq<SendOutcome>)
      ensures this.script == script && delivered == []
    {
      this.script := script;
      delivered := [];
    }

    method SendReading(reading: bytes) returns (outcome: SendOutcome)
      modifies this
      ensures outcome == NextOutcome(old(script)) && script == LaterOutcomes(old(script))
      ensures delivered == if outcome == Sent then old(delivered) + [reading] else old(delivered)
    {
      outcome := NextOutcome(script);
      script := LaterOutcomes(script);
      if outcome == Sent {
        delivered := delivered + [reading];
      }
    }
  }

  /** Why a handler stopped. */
  datatype Ending =
    | Declined               // hello refused by policy: a normal return
    | Stream(error: Exn)     // read_message raised
    | BadHello(error: Exn)
    | BadReading(error: Exn) // a reading that closes the connection
    | Forwarding(error: Exn)

  /** Errors `_handle` counts; a clean close and an unnamed error move no counter. */
  predicate Counted(e: Ending) {
    !e.Declined? && !e.error.ConnectionClosed? && !e.error.Unhandled?
  }

  // ----- specification -----

  /** Everything a handler shares with the other handlers. */
  datatype Desk = Desk(
    guard: LastSeen,
    seen: set<string>,
    counters: Counters,
    script: seq<SendOutcome>,
    delivered: seq<bytes>)
  {
    function Inc(c: Counter): Desk { this.(counters := Bump(counters, c)) }
    function Tally(c: Counter): nat { Count(counters, c) }
  }

  /** What becomes of one message of an admitted device before it is forwarded. */
  datatype Screened = Drop | Close(error: Exn) | Keep(reading: bytes, sequence: int)

  function Screen(t: Table, desk: Desk, m: Message, key: Key, deviceId: string): (Desk, Screened) {
    var d := desk.Inc(MessagesReceived);
    match DecryptLegacyMessage(t, m, key, deviceId)
    case Err(e) =>
      if e == ProcessingError || e == LegacyDecryptionError then (d.Inc(MessagesRejected), Drop)
      else (d, Close(e))
    case Ok((reading, sequence)) =>
      if !Accepts(d.guard, deviceId, sequence) then (d.Inc(MessagesRejected), Drop)
      else (d.(guard := Record(d.guard, deviceId, sequence)).Inc(MessagesProcessed), Keep(reading, sequence))
  }

  function OnReading(t: Table, desk: Desk, m: Message, key: Key, deviceId: string): (Desk, Option<Ending>) {
    match Screen(t, desk, m, key, deviceId)
    case (d, Drop) => (d, None)
    case (d, Close(e)) => (d, Some(BadReading(e)))
    case (d, Keep(reading, _)) => Forward(d, reading)
  }

  function Forward(desk: Desk, reading: bytes): (Desk, Option<Ending>) {
    var d := desk.(script := LaterOutcomes(desk.script));
    match NextOutcome(desk.script)
    case Sent => (d.(delivered := d.delivered + [reading]).Inc(MessagesForwarded), None)
    case Refused => (d, Some(Forwarding(CryptoError)))
    case Died => (d, Some(Forwarding(Unhandled)))
  }

  function Serve(t: Table, desk: Desk, data: bytes, key: Key, deviceId: string): (Desk, Ending)
    decreases |data|
  {
    match ReadMessage(data)
    case (Err(e), _) => (desk, Stream(e))
    case (Ok(m), rest) =>
      match OnReading(t, desk, m, key, deviceId)
      case (d, Some(ending)) => (d, ending)
      case (d, None) => Serve(t, d, rest, key, deviceId)
  }

  /** A device on the fallback path is remembered, and counted the first time. */
  function Detect(desk: Desk, deviceId: string): Desk {
    var d := desk.Inc(FallbackActivations);
    if deviceId in d.seen then d
    else d.(seen := d.seen + {deviceId}).Inc(LegacyDevicesDetected)
  }

  /** The fallback policy applied to a hello. */
  function Welcome(t: Table, keys: map<string, Key>, desk: Desk, hello: Hello): (r: (Desk, Option<Ending>))
    ensures r.1.None? ==> hello.deviceId in keys
  {
    var id := hello.deviceId;
    if id !in keys then (desk.Inc(MessagesRejected), Some(Declined))
    else if EvaluateHello(t, hello, Some(keys[id])) != AllowFallback then (desk.Inc(MessagesRejected), Some(Declined))
    else (Detect(desk, id), None)
  }

  function Admit(t: Table, keys: map<string, Key>, desk: Desk, hello: Hello, data: bytes): (Desk, Ending) {
    match Welcome(t, keys, desk, hello)
    case (d, Some(ending)) => (d, ending)
    case (d, None) => Serve(t, d, data, keys[hello.deviceId], hello.deviceId)
  }

  function Connection(t: Table, keys: map<string, Key>, desk: Desk, data: bytes): (Desk, Ending) {
    match ReadMessage(data)
    case (Err(e), _) => (desk, Stream(e))
    case (Ok(m), rest) =>
      match ParseHello(m)
      case Err(e) => (desk, BadHello(e))
      case Ok(hello) => Admit(t, keys, desk, hello, rest)
  }

  function Settle(desk: Desk, ending: Ending): Desk {
    if Counted(ending) then desk.Inc(Errors) else desk
  }

  function Handle(t: Table, keys: map<string, Key>, desk: Desk, data: bytes): (Desk, Ending) {
    var (d, ending) := Connection(t, keys, desk, data);
    (Settle(d, ending), ending)
  }

  // ----- the server -----

  class DeviceServer {
    const deviceKeys: map<string, Key>
    const port: ForwardPort
    const metrics: Metrics
    const replay: ReplayGuard
    var seenDevices: set<string>

    constructor (deviceKeys: map<string, Key>, port: ForwardPort, metrics: Metrics)
      ensures this.deviceKeys == deviceKeys && this.port == port && this.metrics == metrics
      ensures fresh(replay) && replay.lastSequence == map[] && seenDevices == {}
    {
      this.deviceKeys := deviceKeys;
      this.port := port;
      this.metrics := metrics;
      this.replay := new ReplayGuard();
      seenDevices := {};
    }

    ghost function Snapshot(): Desk
      reads this, port, metrics, replay
    {
      Desk(replay.lastSequence, seenDevices, metrics.counters, port.script, port.delivered)
    }

    method HandleConnection(t: Table, stream: Protocol.Stream) returns (ending: Ending)
      modifies this, port, metrics, replay, stream
      ensures (Snapshot(), ending) == Handle(t, deviceKeys, old(Snapshot()), old(stream.unread))
    {
      hide ReadMessage, ParseHello, Admit, Bump;
      var message := stream.Read();
      if message.Err? {
        ending := Stream(message.error);
      } else {
        var hello := ParseHello(message.value);
        if hello.Err? {
          ending := BadHello(hello.error);
        } else {
          ending := AdmitOrServe(t, stream, hello.value);
        }
      }
      if Counted(ending) {
        metrics.Inc(Errors);
      }
    }

    method AdmitOrServe(t: Table, stream: Protocol.Stream, hello: Hello) returns (ending: Ending)
      modifies this, port, metrics, replay, stream
      ensures (Snapshot(), ending) == Admit(t, deviceKeys, old(Snapshot()), hello, old(stream.unread))
    {
      hide EvaluateHello, Serve, Bump;
      var id := hello.deviceId;
      if id !in deviceKeys {
        metrics.Inc(MessagesRejected);
        return Declined;
      }
      var decision := EvaluateHello(t, hello, Some(deviceKeys[id]));
      if decision != AllowFallback {
        metrics.Inc(MessagesRejected);
        return Declined;
      }
      metrics.Inc(FallbackActivations);
      if id !in seenDevices {
        seenDevices := seenDevices + {id};
        metrics.Inc(LegacyDevicesDetected);
      }
      ending := ServeLegacy(t, stream, id, deviceKeys[id]);
    }

    method ServeLegacy(t: Table, stream: Protocol.Stream, deviceId: string, deviceKey: Key) returns (ending: Ending)
      modifies port, metrics, replay, stream
      ensures seenDevices == old(seenDevices)
      ensures (Snapshot(), ending) == Serve(t, old(Snapshot()), old(stream.unread), deviceKey, deviceId)
    {
      hide ReadMessage, DecryptLegacyMessage, Bump;
      while true
        invariant Serve(t, Snapshot(), stream.unread, deviceKey, deviceId)
               == Serve(t, old(Snapshot()), old(stream.unread), deviceKey, deviceId)
        decreases |stream.unread|
      {
        var message := stream.Read();
        if message.Err? {
          return Stream(message.error);
        }
        metrics.Inc(MessagesReceived);
        var plain := DecryptLegacyMessage(t, message.value, deviceKey, deviceId);
        if plain.Err? {
          if plain.error == ProcessingError || plain.error == LegacyDecryptionError {
            metrics.Inc(MessagesRejected);
            continue;
          }
          return BadReading(plain.error);
        }
        var (reading, sequence) := plain.value;
        var accepted := replay.CheckAndUpdate(deviceId, sequence);
        if !accepted {
          metrics.Inc(MessagesRejected);
          continue;
        }
        metrics.Inc(MessagesProcessed);
        var outcome := port.SendReading(reading);
        match outcome
        case Sent => metrics.Inc(MessagesForwarded);
        case Refused => return Forwarding(CryptoError);
        case Died => return Forwarding(Unhandled);
      }
    }
  }

  // ----- what gets through -----

  /** A reading is kept exactly when it opens under the device's key and its sequence passes the
      guard; then it was encrypted for this device and sequence. Nothing else moves the guard. */
  lemma KeptIsAuthentic(t: Table, desk: Desk, m: Message, key: Key, deviceId: string)
    ensures var (d, s) := Screen(t, desk, m, key, deviceId);
            var r := DecryptLegacyMessage(t, m, key, deviceId);
            && (s.Keep? <==> r.Ok? && Accepts(desk.guard, deviceId, r.value.1))
            && (s.Keep? ==>
                  && (s.reading, s.sequence) == r.value
                  && d.guard == Record(desk.guard, deviceId, s.sequence)
                  && ParseReading(s.reading).Ok?
                  && LegacySlot(key, m, deviceId, s.sequence) in t
                  && t[LegacySlot(key, m, deviceId, s.sequence)] == s.reading)
            && (!s.Keep? ==> d.guard == desk.guard)
            && (s.Close? ==> r.Err?)
            && d.delivered == desk.delivered && d.script == desk.script && d.seen == desk.seen
  {
    hide DecryptLegacyMessage, ParseReading, LegacySlot, Bump, Accepts, Record;
    if DecryptLegacyMessage(t, m, key, deviceId).Ok? {
      AcceptedReading(t, m, key, deviceId);
    }
  }

  /** What a message brings, told from its fields and the table alone: a reading for the guard;
      nothing, when it is of another kind or device, lacks a part, or does not open to a reading; or
      a violation of the protocol. */
  datatype Content = Reading(plaintext: bytes, sequence: int) | Nothing | Violation

  function ContentOf(t: Table, key: Key, deviceId: string, m: Message): Content {
    if Get(m, "type") != Some(Str(MSG_LEGACY_READING)) || Get(m, "device_id") != Some(Str(deviceId)) then Nothing
    else
      match Get(m, "seq")
      case Some(Int(sequence)) =>
        if BrokenEnvelope(m) then Violation
        else
          var slot := LegacySlot(key, m, deviceId, sequence);
          if WholeEnvelope(m) && slot in t && ParseReading(t[slot]).Ok? then Reading(t[slot], sequence) else Nothing
      case _ => Violation
  }

  /** Exactly which messages are kept, dropped, and close the connection. */
  lemma ScreenIff(t: Table, desk: Desk, m: Message, key: Key, deviceId: string)
    ensures var s := Screen(t, desk, m, key, deviceId).1;
            var c := ContentOf(t, key, deviceId, m);
            && (s.Keep? <==> c.Reading? && c.sequence > Last(desk.guard, deviceId))
            && (s.Keep? ==> s == Keep(c.plaintext, c.sequence))
            && (s.Drop? <==> c.Nothing? || (c.Reading? && c.sequence <= Last(desk.guard, deviceId)))
            && (s.Close? <==> c.Violation?)
            && (s.Close? ==> s.error == ProtocolError)
  {
    hide AeadDecrypt, BrokenEnvelope, WholeEnvelope, EnvelopeSlot, ParseReading, LegacyAad, Bump;
    if RequireInt(m, "seq").Ok? {
      AeadOutcome(t, key, m, LegacyAad(deviceId, RequireInt(m, "seq").value), LegacyDecryptionError);
      Exclusive(m);
    }
  }

  /** One turn of the serve loop: a new reading moves the guard, is processed and, if the channel takes
      it, delivered and forwarded; a violation or a failing channel ends the connection; everything
      else is dropped as one rejection. */
  lemma TurnMeaning(t: Table, desk: Desk, m: Message, key: Key, deviceId: string)
    ensures var (d, ending) := OnReading(t, desk, m, key, deviceId);
            var c := ContentOf(t, key, deviceId, m);
            var kept := c.Reading? && c.sequence > Last(desk.guard, deviceId);
            var outcome := NextOutcome(desk.script);
            && d.guard == (if kept then Record(desk.guard, deviceId, c.sequence) else desk.guard)
            && d.seen == desk.seen && d.script == (if kept then LaterOutcomes(desk.script) else desk.script)
            && d.delivered == desk.delivered + (if kept && outcome == Sent then [c.plaintext] else [])
            && ending == (if c.Violation? then Some(BadReading(ProtocolError))
                          else if kept && outcome == Refused then Some(Forwarding(CryptoError))
                          else if kept && outcome == Died then Some(Forwarding(Unhandled))
                          else None)
            && forall x :: d.Tally(x) == desk.Tally(x)
                 + One(x == MessagesReceived) + One(x == MessagesProcessed && kept)
                 + One(x == MessagesForwarded && kept && outcome == Sent)
                 + One(x == MessagesRejected && !kept && !c.Violation?)
  {
    hide Screen, ContentOf, Accepts, Record, Bump, Count;
    ScreenIff(t, desk, m, key, deviceId);
    KeptIsAuthentic(t, desk, m, key, deviceId);
    ScreenTallies(t, desk, m, key, deviceId);
  }

  /** A device's own reading reaches the channel with its bytes unchanged exactly when its
      sequence is above the last one and the send succeeds. */
  lemma HonestReadingForwarded(t: Table, desk: Desk, slot: Slot, deviceId: string, sequence: int)
    requires slot in t && |slot.nonce| == NONCE_LENGTH && slot.aad == LegacyAad(deviceId, sequence)
    requires ParseReading(t[slot]).Ok?
    ensures var m := LegacyReading(deviceId, sequence, slot.nonce, slot.ciphertext);
            var (d, ending) := OnReading(t, desk, m, slot.key, deviceId);
            && d.delivered == desk.delivered
             + (if sequence > Last(desk.guard, deviceId) && NextOutcome(desk.script) == Sent then [t[slot]] else [])
            && (ending.Some? <==> sequence > Last(desk.guard, deviceId) && NextOutcome(desk.script) != Sent)
  {
    hide DecryptLegacyMessage, ParseReading, LegacyAad, Bump;
    LegacyRoundTrip(t, slot, deviceId, sequence);
  }

  /** A hello is admitted exactly when its device is registered, its key tagged these claims, and
      they name the legacy capability without the modern one. Each admission is one activation, and
      one detection the first time; each refusal is one rejection and nothing else. */
  lemma AdmissionMeaning(t: Table, keys: map<string, Key>, desk: Desk, hello: Hello)
    ensures var (d, ending) := Welcome(t, keys, desk, hello);
            var id := hello.deviceId;
            && (ending.None? <==> && id in keys && VerifyHelloAuth(t, keys[id], hello)
                                  && CAP_CHACHA20_POLY1305 in hello.capabilities
                                      && CAP_MLKEM_768 !in hello.capabilities)
            && (ending.Some? ==> ending.value == Declined)
            && d.guard == desk.guard && d.delivered == desk.delivered && d.script == desk.script
            && d.seen == (if ending.None? then desk.seen + {id} else desk.seen)
            && forall c :: d.Tally(c) == desk.Tally(c)
                 + One(ending.None? && (c == FallbackActivations || (c == LegacyDevicesDetected && id !in desk.seen)))
                 + One(ending.Some? && c == MessagesRejected)
  {
    hide EvaluateHello, VerifyHelloAuth, Bump, Count;
    if hello.deviceId in keys {
      FallbackIff(t, hello, Some(keys[hello.deviceId]));
    }
  }

  // ----- ledgers -----

  /** How the counters moved between two desks: every message read is processed, dropped, or
      closes its connection; every processed one is forwarded or fails to be; refused hellos are
      rejections; `errors` endings were counted as errors; each legacy device was counted once. */
  ghost predicate Balance(before: Desk, after: Desk, declined: nat, badReadings: nat, failedForwards: nat,
      errors: nat) {
    && after.Tally(MessagesReceived) + before.Tally(MessagesProcessed) + before.Tally(MessagesRejected) + declined
    == before.Tally(MessagesReceived) + after.Tally(MessagesProcessed) + after.Tally(MessagesRejected) + badReadings
    && after.Tally(MessagesProcessed) + before.Tally(MessagesForwarded)
    == before.Tally(MessagesProcessed) + after.Tally(MessagesForwarded) + failedForwards
    && |after.delivered| + before.Tally(MessagesForwarded) == |before.delivered| + after.Tally(MessagesForwarded)
    && after.Tally(Errors) == before.Tally(Errors) + errors
    && after.Tally(LegacyDevicesDetected) + |before.seen| == before.Tally(LegacyDevicesDetected) + |after.seen|
  }

  lemma BalanceAdds(a: Desk, b: Desk, c: Desk, d1: nat, b1: nat, f1: nat, e1: nat, d2: nat, b2: nat, f2: nat, e2: nat)
    requires Balance(a, b, d1, b1, f1, e1) && Balance(b, c, d2, b2, f2, e2)
    ensures Balance(a, c, d1 + d2, b1 + b2, f1 + f2, e1 + e2)
  {
  }

  lemma NoMoves(desk: Desk)
    ensures Balance(desk, desk, 0, 0, 0, 0)
  {
  }

  lemma ErrorCounted(before: Desk, after: Desk, declined: nat, badReadings: nat, failedForwards: nat)
    requires Balance(before, after, declined, badReadings, failedForwards, 0)
    ensures Balance(before, after.Inc(Errors), declined, badReadings, failedForwards, 1)
  {
  }

  /** Counting an ending's error completes its books. */
  lemma SettleBalance(before: Desk, after: Desk, ending: Ending)
    requires Balance(before, after, One(ending.Declined?), One(ending.BadReading?), One(ending.Forwarding?), 0)
    ensures EndingBalance(before, Settle(after, ending), ending)
  {
    hide Balance;
    if Counted(ending) {
      ErrorCounted(before, after, One(ending.Declined?), One(ending.BadReading?), One(ending.Forwarding?));
    }
  }

  lemma ReadingBalance(t: Table, desk: Desk, m: Message, key: Key, deviceId: string)
    ensures var (d, ending) := OnReading(t, desk, m, key, deviceId);
            && Balance(desk, d, 0, One(ending.Some? && ending.value.BadReading?),
                       One(ending.Some? && ending.value.Forwarding?), 0)
            && (ending.Some? ==> ending.value.BadReading? || ending.value.Forwarding?)
            && (ending.Some? && ending.value.BadReading? ==> ending.value.error == ProtocolError)
  {
    hide DecryptLegacyMessage, Accepts, Record, Bump, Count;
    DecryptErrors(t, m, key, deviceId);
  }

  /** The only class that gets past the serve loop is ProtocolError. */
  lemma DecryptErrors(t: Table, m: Message, key: Key, deviceId: string)
    ensures var r := DecryptLegacyMessage(t, m, key, deviceId);
            r.Err? ==> r.error == ProcessingError || r.error == LegacyDecryptionError || r.error == ProtocolError
  {
  }

  lemma WelcomeBalance(t: Table, keys: map<string, Key>, desk: Desk, hello: Hello)
    ensures var (d, ending) := Welcome(t, keys, desk, hello);
            && Balance(desk, d, One(ending.Some?), 0, 0, 0)
            && (ending.Some? ==> ending.value.Declined?)
  {
    hide EvaluateHello;
  }

  lemma {:induction false} ServeBalance(t: Table, desk: Desk, data: bytes, key: Key, deviceId: string)
    ensures var (d, ending) := Serve(t, desk, data, key, deviceId);
            && Balance(desk, d, 0, One(ending.BadReading?), One(ending.Forwarding?), 0)
            && !ending.Declined?
    decreases |data|
  {
    hide OnReading, ReadMessage;
    match ReadMessage(data)
    case (Err(e), _) =>
    case (Ok(m), rest) =>
      ReadingBalance(t, desk, m, key, deviceId);
      match OnReading(t, desk, m, key, deviceId)
      case (d, Some(ending)) =>
      case (d, None) => ServeBalance(t, d, rest, key, deviceId);
  }

  /** The books of one connection. */
  ghost predicate EndingBalance(before: Desk, after: Desk, ending: Ending) {
    Balance(before, after, One(ending.Declined?), One(ending.BadReading?), One(ending.Forwarding?),
        One(Counted(ending)))
  }

  lemma HandleLedger(t: Table, keys: map<string, Key>, desk: Desk, data: bytes)
    ensures var (d, ending) := Handle(t, keys, desk, data); EndingBalance(desk, d, ending)
  {
    hide Serve, Welcome, ReadMessage, ParseHello, Balance;
    var (d, ending) := Connection(t, keys, desk, data);
    NoMoves(desk);
    match ReadMessage(data) {
      case (Err(e), _) =>
      case (Ok(m), rest) =>
        match ParseHello(m)
        case Err(e) =>
        case Ok(hello) =>
          WelcomeBalance(t, keys, desk, hello);
          match Welcome(t, keys, desk, hello)
          case (mid, Some(e)) =>
          case (mid, None) =>
            ServeBalance(t, mid, rest, keys[hello.deviceId], hello.deviceId);
            BalanceAdds(desk, mid, d, 0, 0, 0, 0, 0, One(ending.BadReading?), One(ending.Forwarding?), 0);
    }
    SettleBalance(desk, d, ending);
  }

  // ----- what each outcome counts -----

  const IS_DECLINED: Ending -> bool := (e: Ending) => e.Declined?
  const IS_BAD_READING: Ending -> bool := (e: Ending) => e.BadReading?
  const IS_FORWARDING: Ending -> bool := (e: Ending) => e.Forwarding?
  const IS_COUNTED: Ending -> bool := (e: Ending) => Counted(e)

  /** Every message read is counted as received, and then as one rejection, as one processed
      reading, or not at all when it closes its connection. */
  lemma ScreenTallies(t: Table, desk: Desk, m: Message, key: Key, deviceId: string)
    ensures var (d, r) := Screen(t, desk, m, key, deviceId);
            forall c :: d.Tally(c) == desk.Tally(c) + One(c == MessagesReceived)
                                      + One(c == MessagesRejected && r.Drop?) + One(c == MessagesProcessed && r.Keep?)
  {
    hide DecryptLegacyMessage, Accepts, Record, Bump, Count;
  }

  lemma SettleTallies(desk: Desk, ending: Ending)
    ensures var d := Settle(desk, ending);
            && d.seen == desk.seen
            && forall c :: d.Tally(c) == desk.Tally(c) + One(c == Errors && Counted(ending))
  {
    hide Bump, Count;
  }
}
