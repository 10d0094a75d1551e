/** The cloud server (cloud/cloud.py): gateway authentication, session establishment and
    registry, the second replay filter, the store and the counters. */
module Cloud {
  import opened Wrappers
  import opened Text
  import opened Json
  import opened Protocol
  import opened Crypto
  import opened CloudProcessing
  import opened Replay
  import opened Accounting
  import opened Store

  /** What the registry holds for a session id. */
  datatype Session = Session(key: Key, gatewayId: string)

  class SessionRegistry {
    var sessions: map<string, Session>

    constructor ()
      ensures sessions == map[]
    {
      sessions := map[];
    }

    method Add(sessionId: string, key: Key, gatewayId: string)
      modifies this
      ensures sessions == old(sessions)[sessionId := Session(key, gatewayId)]
    {
      sessions := sessions[sessionId := Session(key, gatewayId)];
    }

    method Remove(sessionId: string)
      modifies this
      ensures sessions == old(sessions) - {sessionId}
    {
      sessions := sessions - {sessionId};
    }
  }

  /** Why a handler stopped. */
  datatype Ending =
    | Stream(error: Exn)     // read_message or sendall raised
    | Handshake(error: Exn)  // a handshake message was refused
    | BadReading(error: Exn) // a protected message that closes the connection

  predicate Refused(e: Ending) { e.error.AuthenticationError? }

  /** Errors `_handle` counts: not a clean close, not an authentication failure, and nothing
      that no handler names. */
  predicate Counted(e: Ending) {
    !e.error.ConnectionClosed? && !e.error.AuthenticationError? && !e.error.Unhandled?
  }

  // ----- specification -----

  /** Everything the handlers share; `log` is every reading ever stored. */
  datatype Desk = Desk(
    registry: map<string, Session>,
    guard: LastSeen,
    log: seq<Message>,
    counters: Counters)
  {
    function Inc(c: Counter): Desk { this.(counters := Bump(counters, c)) }
    function Tally(c: Counter): nat { Count(counters, c) }
  }

  /** What becomes of one protected message before it is stored. */
  datatype Screened = Drop | Close(error: Exn) | Keep(reading: Message)

  function Screen(t: Table, desk: Desk, m: Message, key: Key, sessionId: string): (Desk, Screened) {
    var d := desk.Inc(MessagesReceived);
    match DecryptProtectedReading(t, m, key, sessionId)
    case Err(e) =>
      if e == ProcessingError || e.IsCrypto() then (d.Inc(MessagesRejected), Drop) else (d, Close(e))
    case Ok(reading) =>
      ScreenReading(d, reading, Get(reading, "sequence"), Get(reading, "device_id"))
  }

  /** The isinstance check on the sequence; the lookup of a device id that is not a string is an
      error no handler names. */
  function ScreenReading(d: Desk, reading: Message, sequence: Option<Json>, deviceId: Option<Json>): (Desk, Screened) {
    if sequence.None? || !sequence.value.Int? then (d.Inc(MessagesRejected), Drop)
    else if deviceId.None? || !deviceId.value.Str? then (d, Close(Unhandled))
    else if !Accepts(d.guard, deviceId.value.s, sequence.value.n) then (d.Inc(MessagesRejected), Drop)
    else (d.(guard := Record(d.guard, deviceId.value.s, sequence.value.n)), Keep(reading))
  }

  function Commit(desk: Desk, reading: Message): Desk {
    desk.(log := desk.log + [reading]).Inc(MessagesProcessed)
  }

  function OnMessage(t: Table, desk: Desk, m: Message, key: Key, sessionId: string): (Desk, Option<Ending>) {
    match Screen(t, desk, m, key, sessionId)
    case (d, Drop) => (d, None)
    case (d, Close(e)) => (d, Some(BadReading(e)))
    case (d, Keep(reading)) => (Commit(d, reading), None)
  }

  function Receive(t: Table, desk: Desk, data: bytes, key: Key, sessionId: string): (Desk, Ending)
    decreases |data|
  {
    match ReadMessage(data)
    case (Err(e), _) => (desk, Stream(e))
    case (Ok(m), rest) =>
      match OnMessage(t, desk, m, key, sessionId)
      case (d, Some(ending)) => (d, ending)
      case (d, None) => Receive(t, d, rest, key, sessionId)
  }

  /** The first handshake message: an authenticated gateway id. */
  function OnRequest(t: Table, keys: map<string, Key>, m: Message): Result<string> {
    var request :- ParseMlkemRequest(m);
    var _ :- AuthenticateGateway(t, keys, request);
    Ok(request.gatewayId)
  }

  /** The second: the session is registered before the reply is sent. */
  function OnEncaps(kem: KemTable, desk: Desk, m: Message, gatewayId: string): (Desk, Result<(string, Key)>) {
    match ParseMlkemEncaps(m)
    case Err(e) => (desk, Err(e))
    case Ok(encaps) =>
      var key := DeriveSessionKey(Decapsulate(kem, encaps.ciphertext));
      var d := desk.Inc(MlkemSessionsEstablished);
      (d.(registry := d.registry[encaps.sessionId := Session(key, gatewayId)]), Ok((encaps.sessionId, key)))
  }

  /** Whether each of the handler's two replies can be sent. */
  datatype Replies = Replies(pubkeySent: bool, establishedSent: bool)

  datatype Establishment = Failed(ending: Ending) | Live(sessionId: string, key: Key, rest: bytes)

  function Establish(t: Table, kem: KemTable, keys: map<string, Key>, desk: Desk, data: bytes, replies: Replies)
    : (Desk, Establishment)
  {
    match ReadMessage(data)
    case (Err(e), _) => (desk, Failed(Stream(e)))
    case (Ok(m), rest) =>
      match OnRequest(t, keys, m)
      case Err(e) => (desk, Failed(Handshake(e)))
      case Ok(gatewayId) =>
        if !replies.pubkeySent then (desk, Failed(Stream(OsError)))
        else
          match ReadMessage(rest)
          case (Err(e), _) => (desk, Failed(Stream(e)))
          case (Ok(m'), rest') =>
            match OnEncaps(kem, desk, m', gatewayId)
            case (d, Err(e)) => (d, Failed(Handshake(e)))
            case (d, Ok((sessionId, key))) =>
              if !replies.establishedSent then (d, Failed(Stream(OsError)))
              else (d, Live(sessionId, key, rest'))
  }

  function Settle(desk: Desk, ending: Ending): Desk {
    if Refused(ending) then desk.Inc(MessagesRejected)
    else if Counted(ending) then desk.Inc(Errors)
    else desk
  }

  function Handle(t: Table, kem: KemTable, keys: map<string, Key>, desk: Desk, data: bytes, replies: Replies)
    : (Desk, Ending)
  {
    match Establish(t, kem, keys, desk, data, replies)
    case (d, Failed(ending)) => (Settle(d, ending), ending)
    case (d, Live(sessionId, key, rest)) =>
      var (d', ending) := Receive(t, d, rest, key, sessionId);
      var settled := Settle(d', ending);
      (settled.(registry := settled.registry - {sessionId}), ending)
  }

  // ----- the server -----

  class CloudServer {
    const gatewayKeys: map<string, Key>
    const registry: SessionRegistry
    const store: ReadingStore
    const metrics: Metrics
    const replay: ReplayGuard

    constructor (gatewayKeys: map<string, Key>, registry: SessionRegistry, store: ReadingStore, metrics: Metrics)
      ensures this.gatewayKeys == gatewayKeys && this.registry == registry
      ensures this.store == store && this.metrics == metrics
      ensures fresh(replay) && replay.lastSequence == map[]
    {
      this.gatewayKeys := gatewayKeys;
      this.registry := registry;
      this.store := store;
      this.metrics := metrics;
      this.replay := new ReplayGuard();
    }

    ghost function Snapshot(): Desk
      reads registry, store, metrics, replay
    {
      Desk(registry.sessions, replay.lastSequence, store.log, metrics.counters)
    }

    method HandleConnection(t: Table, kem: KemTable, stream: Protocol.Stream, replies: Replies) returns (ending: Ending)
      requires store.Valid()
      modifies registry, store, metrics, replay, stream
      ensures store.Valid()
      ensures (Snapshot(), ending) == Handle(t, kem, gatewayKeys, old(Snapshot()), old(stream.unread), replies)
    {
      hide Establish, Receive, Bump;
      var established := EstablishSession(t, kem, stream, replies);
      if established.Failed? {
        ending := established.ending;
      } else {
        ending := ReceiveReadings(t, stream, established.sessionId, established.key);
      }
      if Refused(ending) {
        metrics.Inc(MessagesRejected);
      } else if Counted(ending) {
        metrics.Inc(Errors);
      }
      if established.Live? {
        registry.Remove(established.sessionId);
      }
    }

    method EstablishSession(t: Table, kem: KemTable, stream: Protocol.Stream, replies: Replies)
      returns (established: Establishment)
      modifies registry, metrics, stream
      ensures (Snapshot(), established)
           == Establish(t, kem, gatewayKeys, old(Snapshot()), old(stream.unread), replies)
      ensures established.Live? ==> established.rest == stream.unread
    {
      hide ReadMessage, Bump, ParseMlkemRequest, ParseMlkemEncaps, AuthenticateGateway, Decapsulate;
      var first := stream.Read();
      if first.Err? {
        return Failed(Stream(first.error));
      }
      var request := ParseMlkemRequest(first.value);
      if request.Err? {
        return Failed(Handshake(request.error));
      }
      var authenticated := AuthenticateGateway(t, gatewayKeys, request.value);
      if authenticated.Err? {
        return Failed(Handshake(authenticated.error));
      }
      if !replies.pubkeySent {
        return Failed(Stream(OsError));
      }
      var second := stream.Read();
      if second.Err? {
        return Failed(Stream(second.error));
      }
      var encaps := ParseMlkemEncaps(second.value);
      if encaps.Err? {
        return Failed(Handshake(encaps.error));
      }
      var key := DeriveSessionKey(Decapsulate(kem, encaps.value.ciphertext));
      metrics.Inc(MlkemSessionsEstablished);
      registry.Add(encaps.value.sessionId, key, request.value.gatewayId);
      if !replies.establishedSent {
        return Failed(Stream(OsError));
      }
      return Live(encaps.value.sessionId, key, stream.unread);
    }

    method ReceiveReadings(t: Table, stream: Protocol.Stream, sessionId: string, key: Key) returns (ending: Ending)
      requires store.Valid()
      modifies store, metrics, replay, stream
      ensures store.Valid()
      ensures (Snapshot(), ending) == Receive(t, old(Snapshot()), old(stream.unread), key, sessionId)
    {
      hide ReadMessage, OnMessage;
      while true
        invariant store.Valid()
        invariant Receive(t, Snapshot(), stream.unread, key, sessionId)
               == Receive(t, old(Snapshot()), old(stream.unread), key, sessionId)
        decreases |stream.unread|
      {
        var message := stream.Read();
        if message.Err? {
          return Stream(message.error);
        }
        var stopped := ReceiveOne(t, message.value, sessionId, key);
        if stopped.Some? {
          return stopped.value;
        }
      }
    }

    /** One turn of the receive loop; Some is an error that leaves it. */
    method ReceiveOne(t: Table, m: Message, sessionId: string, key: Key) returns (stopped: Option<Ending>)
      requires store.Valid()
      modifies store, metrics, replay
      ensures store.Valid()
      ensures (Snapshot(), stopped) == OnMessage(t, old(Snapshot()), m, key, sessionId)
    {
      hide DecryptProtectedReading, Bump, Accepts, LastN, Pushed, Record, Get;
      metrics.Inc(MessagesReceived);
      var plain := DecryptProtectedReading(t, m, key, sessionId);
      if plain.Err? {
        if plain.error == ProcessingError || plain.error.IsCrypto() {
          metrics.Inc(MessagesRejected);
          return None;
        }
        return Some(BadReading(plain.error));
      }
      var sequence := Get(plain.value, "sequence");
      if sequence.None? || !sequence.value.Int? {
        metrics.Inc(MessagesRejected);
        return None;
      }
      var deviceId := Get(plain.value, "device_id");
      if deviceId.None? || !deviceId.value.Str? {
        return Some(BadReading(Unhandled));
      }
      var accepted := replay.CheckAndUpdate(deviceId.value.s, sequence.value.n);
      if !accepted {
        metrics.Inc(MessagesRejected);
        return None;
      }
      store.Add(plain.value);
      metrics.Inc(MessagesProcessed);
      return None;
    }
  }

  // ----- what gets through -----

  /** What a message presents to the guard: the claims of a reading that opens. */
  function Presents(t: Table, m: Message, key: Key, sessionId: string): seq<Arrival> {
    match DecryptProtectedReading(t, m, key, sessionId)
    case Err(_) => []
    case Ok(reading) =>
      match (Get(reading, "sequence"), Get(reading, "device_id"))
      case (Some(Int(sequence)), Some(Str(deviceId))) => [Arrival(deviceId, sequence)]
      case _ => []
  }

  /** The device and sequence a stored reading claims. */
  function ArrivalOf(reading: Message): Arrival {
    match (Get(reading, "device_id"), Get(reading, "sequence"))
    case (Some(Str(deviceId)), Some(Int(sequence))) => Arrival(deviceId, sequence)
    case _ => Arrival("", 0)
  }

  /** The bytes are a reading that claims this device and sequence. */
  predicate ReadsAs(plaintext: bytes, a: Arrival) {
    ParseReading(plaintext).Ok? && ArrivalOf(ParseReading(plaintext).value) == a
  }

  /** A reading is kept exactly when it opens on this session and its claims pass the guard;
      then it was encrypted under this session's key for exactly this session id. */
  lemma KeptIsAuthentic(t: Table, desk: Desk, m: Message, key: Key, sessionId: string)
    ensures var (d, s) := Screen(t, desk, m, key, sessionId);
            var presents := Presents(t, m, key, sessionId);
            && (s.Keep? <==> presents != [] && Accepts(desk.guard, presents[0].device, presents[0].sequence))
            && (s.Keep? ==>
                  var a := ArrivalOf(s.reading);
                  && presents == [a]
                  && d.guard == Record(desk.guard, a.device, a.sequence)
                  && ReceivedSlot(key, m, sessionId) in t
                  && ParseReading(t[ReceivedSlot(key, m, sessionId)]) == Ok(s.reading))
            && (!s.Keep? ==> d.guard == desk.guard)
            && (s.Close? ==> presents == [])
            && d.log == desk.log && d.registry == desk.registry
  {
    hide DecryptProtectedReading, ParseReading, ReceivedSlot, Bump, Get, Accepts, Record;
    if DecryptProtectedReading(t, m, key, sessionId).Ok? {
      AcceptedProtected(t, m, key, sessionId);
    }
  }

  /** What a message brings, told from its fields and the table alone: a reading for the guard;
      nothing, when it is of another kind or session, lacks a part, or does not open to a reading
      with an integer sequence; or an error that closes the connection. */
  datatype Content = Reading(reading: Message, arrival: Arrival) | Nothing | Violation(error: Exn)

  function ContentOf(t: Table, key: Key, sessionId: string, m: Message): Content {
    if Get(m, "type") != Some(Str(MSG_PROTECTED_READING)) then Nothing
    else
      match Get(m, "session_id")
      case Some(Str(claimed)) =>
        if claimed == "" then Violation(ProtocolError)
        else if claimed != sessionId then Nothing
        else if BrokenEnvelope(m) then Violation(ProtocolError)
        else
          var slot := ReceivedSlot(key, m, sessionId);
          if WholeEnvelope(m) && slot in t then ReadingContent(ParseReading(t[slot])) else Nothing
      case _ => Violation(ProtocolError)
  }

  function ReadingContent(parsed: Result<Message>): Content {
    match parsed
    case Err(_) => Nothing
    case Ok(reading) =>
      match (Get(reading, "sequence"), Get(reading, "device_id"))
      case (Some(Int(sequence)), Some(Str(deviceId))) => Reading(reading, Arrival(deviceId, sequence))
      case (Some(Int(_)), _) => Violation(Unhandled)
      case _ => Nothing
  }

  /** Exactly which messages are kept, dropped, and close the connection, and with which error. */
  lemma ScreenIff(t: Table, desk: Desk, m: Message, key: Key, sessionId: string)
    ensures var s := Screen(t, desk, m, key, sessionId).1;
            var c := ContentOf(t, key, sessionId, m);
            && (s.Keep? <==> c.Reading? && c.arrival.sequence > Last(desk.guard, c.arrival.device))
            && (s.Keep? ==> s.reading == c.reading)
            && (s.Drop? <==> c.Nothing? || (c.Reading? && c.arrival.sequence <= Last(desk.guard, c.arrival.device)))
            && (s.Close? <==> c.Violation?)
            && (s.Close? ==> s.error == c.error)
  {
    hide AeadDecrypt, BrokenEnvelope, WholeEnvelope, EnvelopeSlot, ParseReading, SessionAad, Bump;
    AeadOutcome(t, key, m, SessionAad(sessionId), CryptoError);
    Exclusive(m);
  }

  /** One turn of the receive loop: a new reading moves the guard, enters the log and is processed; a
      violation ends the connection; everything else is dropped as one rejection. */
  lemma TurnMeaning(t: Table, desk: Desk, m: Message, key: Key, sessionId: string)
    ensures var (d, ending) := OnMessage(t, desk, m, key, sessionId);
            var c := ContentOf(t, key, sessionId, m);
            var kept := c.Reading? && c.arrival.sequence > Last(desk.guard, c.arrival.device);
            && d.guard == (if kept then Record(desk.guard, c.arrival.device, c.arrival.sequence) else desk.guard)
            && d.registry == desk.registry && d.log == desk.log + (if kept then [c.reading] else [])
            && ending == (if c.Violation? then Some(BadReading(c.error)) else None)
            && forall x :: d.Tally(x) == desk.Tally(x)
                 + One(x == MessagesReceived) + One(x == MessagesProcessed && kept)
                 + One(x == MessagesRejected && !kept && !c.Violation?)
  {
    hide Screen, ContentOf, Accepts, Record, Bump, Count, Commit;
    ScreenIff(t, desk, m, key, sessionId);
    KeptIsAuthentic(t, desk, m, key, sessionId);
    ScreenTallies(t, desk, m, key, sessionId);
    KeptArrival(t, key, sessionId, m);
    var (d, s) := Screen(t, desk, m, key, sessionId);
    if s.Keep? {
      CommitTallies(d, s.reading);
      CommitKeeps(d, s.reading);
    }
  }

  lemma KeptArrival(t: Table, key: Key, sessionId: string, m: Message)
    ensures var c := ContentOf(t, key, sessionId, m); c.Reading? ==> c.arrival == ArrivalOf(c.reading)
  {
    hide ParseReading, EnvelopeSlot, BrokenEnvelope, WholeEnvelope;
  }

  lemma CommitKeeps(desk: Desk, reading: Message)
    ensures Commit(desk, reading).guard == desk.guard && Commit(desk, reading).registry == desk.registry
  {
  }

  /** A ciphertext message that is accepted registers, under its own session id, the key its
      ciphertext decapsulates to and the authenticated gateway, and counts one session; one that is
      refused changes nothing. */
  lemma EncapsMeaning(kem: KemTable, desk: Desk, m: Message, gatewayId: string)
    ensures var (d, r) := OnEncaps(kem, desk, m, gatewayId);
            && (r.Ok? <==> ParseMlkemEncaps(m).Ok?)
            && (r.Ok? ==>
                  && var (sessionId, key) := r.value;
                  && key == DeriveSessionKey(Decapsulate(kem, ParseMlkemEncaps(m).value.ciphertext))
                  && sessionId == ParseMlkemEncaps(m).value.sessionId
                  && sessionId in d.registry && d.registry[sessionId] == Session(key, gatewayId)
                  && (forall id | id != sessionId :: (id in d.registry <==> id in desk.registry)
                                                     && (id in desk.registry ==> d.registry[id] == desk.registry[id])))
            && d.guard == desk.guard && d.log == desk.log
            && (r.Err? ==> d == desk && r.error == ProtocolError)
            && forall c :: d.Tally(c) == desk.Tally(c) + One(r.Ok? && c == MlkemSessionsEstablished)
  {
    hide ParseMlkemEncaps, Decapsulate, Bump, Count;
  }

  // ----- what a handler leaves behind -----

  lemma {:induction false} ReceiveKeepsRegistry(t: Table, desk: Desk, data: bytes, key: Key, sessionId: string)
    ensures var d := Receive(t, desk, data, key, sessionId).0;
            d.registry == desk.registry && desk.log <= d.log
    decreases |data|
  {
    hide ReadMessage, OnMessage;
    var (read, rest) := ReadMessage(data);
    if read.Ok? {
      var (d, ending) := OnMessage(t, desk, read.value, key, sessionId);
      OnMessageLogs(t, desk, read.value, key, sessionId);
      if ending.None? {
        ReceiveKeepsRegistry(t, d, rest, key, sessionId);
      }
    }
  }

  lemma OnMessageLogs(t: Table, desk: Desk, m: Message, key: Key, sessionId: string)
    ensures var d := OnMessage(t, desk, m, key, sessionId).0;
            d.registry == desk.registry && desk.log <= d.log
  {
    hide Screen, Bump;
    KeptIsAuthentic(t, desk, m, key, sessionId);
  }

  /** A handler leaves the registry as it found it, without its own id if it had a session; only
      one that registered and could not send its last reply leaves an entry behind. */
  lemma RegistryAfterHandle(t: Table, kem: KemTable, keys: map<string, Key>, desk: Desk, data: bytes,
      replies: Replies, id: string)
    ensures var after := Handle(t, kem, keys, desk, data, replies).0.registry;
            var established := Establish(t, kem, keys, desk, data, replies).1;
            && (established.Live? && id == established.sessionId ==> id !in after)
            && (established.Live? && id != established.sessionId ==>
                  (id in after <==> id in desk.registry) && (id in after ==> after[id] == desk.registry[id]))
            && (established.Failed? && replies.establishedSent ==> after == desk.registry)
            && (established.Failed? && after != desk.registry ==>
                  established.ending == Stream(OsError) && desk.registry.Keys <= after.Keys)
  {
    hide ReadMessage, OnRequest, ParseMlkemEncaps, Decapsulate, Receive, Bump;
    var (d, established) := Establish(t, kem, keys, desk, data, replies);
    if established.Live? {
      ReceiveKeepsRegistry(t, d, established.rest, established.key, established.sessionId);
    }
  }

  // ----- ledgers -----

  /** How the counters moved between two desks: every message read is processed, dropped, or
      closes its connection; refused gateways are rejections; and the log grew by exactly the
      processed readings. */
  ghost predicate Balance(before: Desk, after: Desk, refused: nat, badReadings: nat, errors: nat) {
    && after.Tally(MessagesReceived) + before.Tally(MessagesProcessed) + before.Tally(MessagesRejected) + refused
    == before.Tally(MessagesReceived) + after.Tally(MessagesProcessed) + after.Tally(MessagesRejected) + badReadings
    && |after.log| + before.Tally(MessagesProcessed) == |before.log| + after.Tally(MessagesProcessed)
    && after.Tally(Errors) == before.Tally(Errors) + errors
  }

  lemma BalanceAdds(a: Desk, b: Desk, c: Desk, r1: nat, b1: nat, e1: nat, r2: nat, b2: nat, e2: nat)
    requires Balance(a, b, r1, b1, e1) && Balance(b, c, r2, b2, e2)
    ensures Balance(a, c, r1 + r2, b1 + b2, e1 + e2)
  {
  }

  ghost predicate EndingBalance(before: Desk, after: Desk, ending: Ending) {
    Balance(before, after, One(Refused(ending)), One(ending.BadReading?), One(Counted(ending)))
  }

  lemma SettleBalance(before: Desk, after: Desk, ending: Ending)
    requires Balance(before, after, 0, One(ending.BadReading?), 0)
    ensures EndingBalance(before, Settle(after, ending), ending)
  {
    hide Bump, Count;
  }

  lemma MessageBalance(t: Table, desk: Desk, m: Message, key: Key, sessionId: string)
    ensures var (d, ending) := OnMessage(t, desk, m, key, sessionId);
            && Balance(desk, d, 0, One(ending.Some?), 0)
            && (ending.Some? ==> ending.value.BadReading? && !Refused(ending.value))
  {
    hide DecryptProtectedReading, Accepts, Record, Get, Bump, Count;
  }

  lemma {:induction false} ReceiveBalance(t: Table, desk: Desk, data: bytes, key: Key, sessionId: string)
    ensures var (d, ending) := Receive(t, desk, data, key, sessionId);
            Balance(desk, d, 0, One(ending.BadReading?), 0)
    decreases |data|
  {
    hide OnMessage, ReadMessage;
    match ReadMessage(data)
    case (Err(e), _) =>
    case (Ok(m), rest) =>
      MessageBalance(t, desk, m, key, sessionId);
      match OnMessage(t, desk, m, key, sessionId)
      case (d, Some(ending)) =>
      case (d, None) => ReceiveBalance(t, d, rest, key, sessionId);
  }

  lemma NoMoves(desk: Desk)
    ensures Balance(desk, desk, 0, 0, 0)
  {
  }

  lemma EncapsBalance(kem: KemTable, desk: Desk, m: Message, gatewayId: string)
    ensures Balance(desk, OnEncaps(kem, desk, m, gatewayId).0, 0, 0, 0)
  {
    hide OnEncaps, Count;
    EncapsMeaning(kem, desk, m, gatewayId);
  }

  lemma EstablishBalance(t: Table, kem: KemTable, keys: map<string, Key>, desk: Desk, data: bytes, replies: Replies)
    ensures var (d, established) := Establish(t, kem, keys, desk, data, replies);
            && Balance(desk, d, 0, 0, 0)
            && (established.Failed? ==> !established.ending.BadReading?)
  {
    hide ReadMessage, OnRequest, OnEncaps, Balance;
    NoMoves(desk);
    var (first, rest) := ReadMessage(data);
    var second := ReadMessage(rest).0;
    if first.Ok? && OnRequest(t, keys, first.value).Ok? && second.Ok? {
      EncapsBalance(kem, desk, second.value, OnRequest(t, keys, first.value).value);
    }
  }

  lemma HandleLedger(t: Table, kem: KemTable, keys: map<string, Key>, desk: Desk, data: bytes, replies: Replies)
    ensures var (d, ending) := Handle(t, kem, keys, desk, data, replies); EndingBalance(desk, d, ending)
  {
    hide Establish, Receive;
    EstablishBalance(t, kem, keys, desk, data, replies);
    match Establish(t, kem, keys, desk, data, replies)
    case (d, Failed(ending)) => SettleBalance(desk, d, ending);
    case (d, Live(sessionId, key, rest)) =>
      ReceiveBalance(t, d, rest, key, sessionId);
      var (d', ending) := Receive(t, d, rest, key, sessionId);
      SettleBalance(desk, d', ending);
  }

  // ----- what each outcome counts -----

  const IS_REFUSED: Ending -> bool := (e: Ending) => Refused(e)
  const IS_BAD_READING: Ending -> bool := (e: Ending) => e.BadReading?
  const IS_COUNTED: Ending -> bool := (e: Ending) => Counted(e)

  /** Every message read is counted as received, and as a rejection if it is dropped; a kept
      reading is counted as processed only when it is stored. */
  lemma ScreenTallies(t: Table, desk: Desk, m: Message, key: Key, sessionId: string)
    ensures var (d, r) := Screen(t, desk, m, key, sessionId);
            forall c :: d.Tally(c) == desk.Tally(c) + One(c == MessagesReceived) + One(c == MessagesRejected && r.Drop?)
  {
    hide DecryptProtectedReading, Accepts, Record, Get, Bump, Count;
  }

  lemma SettleTallies(desk: Desk, ending: Ending)
    ensures var d := Settle(desk, ending);
            forall c :: d.Tally(c) == desk.Tally(c) + One(c == MessagesRejected && Refused(ending))
                                      + One(c == Errors && Counted(ending))
  {
    hide Bump, Count;
  }

  lemma CommitTallies(desk: Desk, reading: Message)
    ensures var d := Commit(desk, reading);
            && d.log == desk.log + [reading]
            && forall c :: d.Tally(c) == desk.Tally(c) + One(c == MessagesProcessed)
  {
    hide Bump, Count;
  }
}
