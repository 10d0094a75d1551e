/** One whole connection at the cloud (cloud/cloud.py): when a session is established and what becomes
    of everything the gateway sends on it, from the first byte to the end, said without the loop. */
module CloudConnection {
  import opened Wrappers
  import opened Text
  import opened Protocol
  import opened Crypto
  import opened GatewayProcessing
  import opened CloudProcessing
  import opened Replay
  import opened Accounting
  import Base64
  import C = Cloud
  import Handshake

  /** What an established connection brings. */
  datatype Talk = Talk(table: Table, key: Key, sessionId: string, messages: seq<Message>) {
    function ContentAt(i: nat): C.Content
      requires i < |messages|
    {
      C.ContentOf(table, key, sessionId, messages[i])
    }

    function Presented(): (presented: seq<Option<Arrival>>)
      ensures |presented| == |messages|
    {
      seq(|messages|, i requires 0 <= i < |messages| =>
        if ContentAt(i).Reading? then Some(ContentAt(i).arrival) else None)
    }

    /** The first n messages that bring a new reading. */
    ghost function New(guard: LastSeen, n: nat): (indices: seq<nat>)
      requires n <= |messages|
      ensures |indices| <= n
    {
      NewOnes(guard, Presented(), n)
    }

    function ReadingAt(i: nat): Message {
      if i < |messages| && ContentAt(i).Reading? then ContentAt(i).reading else []
    }

    function Readings(indices: seq<nat>): seq<Message> {
      seq(|indices|, i requires 0 <= i < |indices| => ReadingAt(indices[i]))
    }

    /** The first message from n on that ends the connection, or how many there are. */
    function StopFrom(n: nat): (i: nat)
      requires n <= |messages|
      ensures n <= i <= |messages| && forall j | n <= j < i :: !ContentAt(j).Violation?
      ensures i < |messages| ==> ContentAt(i).Violation?
      decreases |messages| - n
    {
      if n == |messages| || ContentAt(n).Violation? then n else StopFrom(n + 1)
    }

    /** How many messages were read when the connection ends at message i. */
    function Through(i: nat): (n: nat)
      requires i <= |messages|
      ensures n <= |messages|
    {
      if i < |messages| then i + 1 else i
    }

    /** Message i is a violation, or there is none. */
    predicate StopsAt(i: nat) {
      i <= |messages| && (i < |messages| ==> ContentAt(i).Violation?)
    }

    function EndingAt(closing: Exn, i: nat): C.Ending
      requires StopsAt(i)
    {
      if i == |messages| then C.Stream(closing) else C.BadReading(ContentAt(i).error)
    }

    /** The desk after `read` messages of which the new ones were stored and `dropped` were rejected;
        nothing else has moved. */
    ghost predicate Received(before: C.Desk, after: C.Desk, read: nat, dropped: nat)
      requires read <= |messages|
    {
      && Raised(before.guard, after.guard, Presented(), read)
      && after.registry == before.registry && after.log == before.log + Readings(New(before.guard, read))
      && (forall c :: after.Tally(c) == before.Tally(c)
           + (match c
              case MessagesReceived => read
              case MessagesProcessed => |New(before.guard, read)|
              case MessagesRejected => dropped
              case _ => 0))
    }

    ghost predicate ReceivedAll(before: C.Desk, after: C.Desk, n: nat)
      requires n <= |messages|
    {
      Received(before, after, n, n - |New(before.guard, n)|)
    }

    /** The desk and the ending when the connection ends at message i. */
    ghost predicate Ends(before: C.Desk, after: C.Desk, ending: C.Ending, closing: Exn, i: nat)
      requires StopsAt(i)
    {
      Received(before, after, Through(i), i - |New(before.guard, i)|) && ending == EndingAt(closing, i)
    }

    /** What a whole connection does once its session is established, from the desk before the first
        message to the desk after the handler has evicted the session and counted the ending. */
    ghost predicate Connection(before: C.Desk, after: C.Desk, ending: C.Ending, closing: Exn) {
      var i := StopFrom(0);
      var kept := New(before.guard, Through(i));
      && Raised(before.guard, after.guard, Presented(), Through(i))
      && after.registry == before.registry - {sessionId} && after.log == before.log + Readings(kept)
      && ending == EndingAt(closing, i)
      && (forall c :: after.Tally(c) == before.Tally(c)
           + (match c
              case MessagesReceived => Through(i)
              case MessagesProcessed => |kept|
              case MessagesRejected => i - |New(before.guard, i)|
              case MlkemSessionsEstablished => 1
              case Errors => One(!ending.error.ConnectionClosed? && !ending.error.Unhandled?)
              case _ => 0))
    }
  }

  // ----- one message -----

  lemma NothingReceived(talk: Talk, desk: C.Desk)
    ensures talk.ReceivedAll(desk, desk, 0)
  {
    NothingRaised(desk.guard, talk.Presented());
    assert desk.log + [] == desk.log;
  }

  lemma NewGrows(talk: Talk, guard: LastSeen, n: nat)
    requires n < |talk.messages|
    ensures talk.New(guard, n + 1) == talk.New(guard, n) + if IsNew(guard, talk.Presented(), n) then [n] else []
    ensures talk.Readings(talk.New(guard, n) + [n]) == talk.Readings(talk.New(guard, n)) + [talk.ReadingAt(n)]
    ensures IsNew(guard, talk.Presented(), n) ==> talk.ContentAt(n).Reading?
  {
  }

  lemma GuardAfter(talk: Talk, before: C.Desk, desk: C.Desk, n: nat)
    requires n < |talk.messages| && Raised(before.guard, desk.guard, talk.Presented(), n)
    ensures var c := talk.ContentAt(n);
            var kept := c.Reading? && c.arrival.sequence > Last(desk.guard, c.arrival.device);
            && (kept <==> IsNew(before.guard, talk.Presented(), n))
            && Raised(before.guard,
                      if kept then Record(desk.guard, c.arrival.device, c.arrival.sequence) else desk.guard,
                      talk.Presented(), n + 1)
  {
    hide Raised, C.ContentOf;
    if talk.Presented()[n].Some? {
      AcceptsIffNew(before.guard, desk.guard, talk.Presented(), n);
      RecordRaises(before.guard, desk.guard, talk.Presented(), n);
    } else {
      NoneRaisesNothing(before.guard, desk.guard, talk.Presented(), n);
    }
  }

  lemma OneTurn(talk: Talk, before: C.Desk, desk: C.Desk, n: nat, closing: Exn)
    requires n < |talk.messages| && talk.ReceivedAll(before, desk, n)
    ensures var (d, ending) := C.OnMessage(talk.table, desk, talk.messages[n], talk.key, talk.sessionId);
            if talk.ContentAt(n).Violation? then ending.Some? && talk.Ends(before, d, ending.value, closing, n)
            else ending.None? && talk.ReceivedAll(before, d, n + 1)
  {
    hide Raised, C.ContentOf, C.OnMessage, NewOnes, IsNew, Record, Count;
    GuardAfter(talk, before, desk, n);
    C.TurnMeaning(talk.table, desk, talk.messages[n], talk.key, talk.sessionId);
    NewGrows(talk, before.guard, n);
    assert talk.New(before.guard, n) + [] == talk.New(before.guard, n);
  }

  // ----- all of them -----

  lemma {:induction false} ReceiveFrom(talk: Talk, before: C.Desk, desk: C.Desk, data: bytes, closing: Exn, n: nat)
    requires n <= |talk.messages| && Drain(data) == (talk.messages[n..], closing)
    requires talk.ReceivedAll(before, desk, n)
    ensures var (d, ending) := C.Receive(talk.table, desk, data, talk.key, talk.sessionId);
            talk.Ends(before, d, ending, closing, talk.StopFrom(n))
    decreases |talk.messages| - n
  {
    hide Talk.Received, C.ContentOf, ReadMessage, C.OnMessage, NewOnes;
    if n < |talk.messages| {
      assert talk.messages[n..][0] == talk.messages[n] && talk.messages[n..][1..] == talk.messages[n + 1..];
      OneTurn(talk, before, desk, n, closing);
      if !talk.ContentAt(n).Violation? {
        var d := C.OnMessage(talk.table, desk, talk.messages[n], talk.key, talk.sessionId).0;
        ReceiveFrom(talk, before, d, ReadMessage(data).1, closing, n + 1);
      }
    }
  }

  /** What the receive loop does with any bytes. */
  lemma ReceiveMeaning(t: Table, desk: C.Desk, data: bytes, key: Key, sessionId: string)
    ensures var (messages, closing) := Drain(data);
            var talk := Talk(t, key, sessionId, messages);
            var (d, ending) := C.Receive(t, desk, data, key, sessionId);
            talk.Ends(desk, d, ending, closing, talk.StopFrom(0))
  {
    hide Talk.Received, C.ContentOf, C.Receive, Drain;
    var (messages, closing) := Drain(data);
    var talk := Talk(t, key, sessionId, messages);
    NothingReceived(talk, desk);
    assert messages[0..] == messages;
    ReceiveFrom(talk, desk, desk, data, closing, 0);
  }

  // ----- the handshake and all of them -----

  /** A request in form whose tag the registered key of its gateway made. */
  predicate Authentic(t: Table, keys: map<string, Key>, m: Message) {
    match ParseMlkemRequest(m)
    case Err(_) => false
    case Ok(r) =>
      && r.gatewayId in keys
      && TagVerifies(t, keys[r.gatewayId], r.authNonce, r.authTag, GatewayClaims(r.gatewayId))
  }

  /** What the messages and the replies must be for a session. */
  predicate Establishes(t: Table, keys: map<string, Key>, messages: seq<Message>, replies: C.Replies) {
    Registers(t, keys, messages, replies) && replies.establishedSent
  }

  /** What they must be for an entry in the registry, before the last reply. */
  predicate Registers(t: Table, keys: map<string, Key>, messages: seq<Message>, replies: C.Replies) {
    |messages| >= 2 && Authentic(t, keys, messages[0]) && replies.pubkeySent && ParseMlkemEncaps(messages[1]).Ok?
  }

  /** How the handler ends when no session is established. */
  function Failure(t: Table, keys: map<string, Key>, messages: seq<Message>, closing: Exn, replies: C.Replies)
    : C.Ending
  {
    if messages == [] then C.Stream(closing)
    else if ParseMlkemRequest(messages[0]).Err? then C.Handshake(ProtocolError)
    else if !Authentic(t, keys, messages[0]) then C.Handshake(AuthenticationError)
    else if !replies.pubkeySent then C.Stream(OsError)
    else if |messages| == 1 then C.Stream(closing)
    else if ParseMlkemEncaps(messages[1]).Err? then C.Handshake(ProtocolError)
    else C.Stream(OsError)
  }

  /** The session that the two messages register. */
  function SessionOf(kem: KemTable, messages: seq<Message>): (string, C.Session)
    requires |messages| >= 2 && ParseMlkemRequest(messages[0]).Ok? && ParseMlkemEncaps(messages[1]).Ok?
  {
    var encaps := ParseMlkemEncaps(messages[1]).value;
    (encaps.sessionId,
     C.Session(DeriveSessionKey(Decapsulate(kem, encaps.ciphertext)), ParseMlkemRequest(messages[0]).value.gatewayId))
  }

  /** The desk with one more session registered and counted. */
  ghost predicate Registered(before: C.Desk, after: C.Desk, session: (string, C.Session)) {
    && after.registry == before.registry[session.0 := session.1]
    && after.guard == before.guard && after.log == before.log
    && forall c :: after.Tally(c) == before.Tally(c) + One(c == MlkemSessionsEstablished)
  }

  /** When a session is established, and with what; every failure with its ending; and that only a
      failed last reply leaves an entry behind. */
  lemma EstablishMeaning(t: Table, kem: KemTable, keys: map<string, Key>, desk: C.Desk, data: bytes, replies: C.Replies)
    ensures var (messages, closing) := Drain(data);
            var (d, established) := C.Establish(t, kem, keys, desk, data, replies);
            && (established.Live? <==> Establishes(t, keys, messages, replies))
            && (established.Live? ==>
                  && (established.sessionId, established.key)
                  == (SessionOf(kem, messages).0, SessionOf(kem, messages).1.key)
                  && Drain(established.rest) == (messages[2..], closing))
            && (established.Failed? ==> established.ending == Failure(t, keys, messages, closing, replies))
            && (if Registers(t, keys, messages, replies)
                then Registered(desk, d, SessionOf(kem, messages))
                else d == desk)
  {
    hide ReadMessage, C.OnRequest, C.OnEncaps, ParseMlkemRequest, ParseMlkemEncaps, Authentic, Decapsulate, Drain,
         Registered, SessionOf;
    DrainsTwo(data);
    var (first, rest) := ReadMessage(data);
    if first.Ok? {
      OnRequestMeaning(t, keys, first.value);
      var second := ReadMessage(rest).0;
      if second.Ok? && Authentic(t, keys, first.value) {
        OnEncapsRegisters(kem, desk, first.value, second.value);
        if ParseMlkemEncaps(second.value).Ok? {
          SameSession(kem, Drain(data).0, [first.value, second.value]);
        }
      }
    }
  }

  /** The first two messages of a stream, and what is left after them. */
  lemma DrainsTwo(data: bytes)
    ensures var (messages, closing) := Drain(data);
            var (first, rest) := ReadMessage(data);
            var (second, later) := ReadMessage(rest);
            && (first.Err? ==> messages == [] && closing == first.error)
            && (first.Ok? ==> messages != [] && messages[0] == first.value)
            && (first.Ok? && second.Err? ==> |messages| == 1 && closing == second.error)
            && (first.Ok? && second.Ok? ==>
                  |messages| >= 2 && messages[1] == second.value && Drain(later) == (messages[2..], closing))
  {
    hide ReadMessage;
    var (first, rest) := ReadMessage(data);
    if first.Ok? && ReadMessage(rest).0.Ok? {
      var messages := Drain(data).0;
      assert messages[1..] == Drain(rest).0;
      assert messages[2..] == messages[1..][1..] == Drain(ReadMessage(rest).1).0;
    }
  }

  lemma OnRequestMeaning(t: Table, keys: map<string, Key>, m: Message)
    ensures C.OnRequest(t, keys, m)
         == if ParseMlkemRequest(m).Err? then Err(ProtocolError)
            else if !Authentic(t, keys, m) then Err(AuthenticationError)
            else Ok(ParseMlkemRequest(m).value.gatewayId)
    ensures Authentic(t, keys, m) ==> ParseMlkemRequest(m).Ok?
  {
    hide ParseMlkemRequest, TagVerifies, HasType, HasText;
    RequestIff(m);
  }

  lemma OnEncapsRegisters(kem: KemTable, desk: C.Desk, request: Message, encaps: Message)
    requires ParseMlkemRequest(request).Ok?
    ensures var (d, r) := C.OnEncaps(kem, desk, encaps, ParseMlkemRequest(request).value.gatewayId);
            && (ParseMlkemEncaps(encaps).Err? ==> d == desk && r == Err(ProtocolError))
            && (ParseMlkemEncaps(encaps).Ok? ==>
                  var (sessionId, session) := SessionOf(kem, [request, encaps]);
                  r == Ok((sessionId, session.key)) && Registered(desk, d, (sessionId, session)))
  {
    hide ParseMlkemRequest, ParseMlkemEncaps, Decapsulate, Bump, Count;
  }

  lemma SameSession(kem: KemTable, messages: seq<Message>, two: seq<Message>)
    requires |messages| >= 2 && two == messages[..2]
    requires ParseMlkemRequest(two[0]).Ok? && ParseMlkemEncaps(two[1]).Ok?
    ensures SessionOf(kem, messages) == SessionOf(kem, two)
  {
  }

  /** The desk of a handler that never served: a session it could not confirm stays, and the ending is
      counted, a failed authentication as a rejection. */
  ghost predicate NeverServed(kem: KemTable, before: C.Desk, after: C.Desk, messages: seq<Message>, registered: bool,
                              ending: C.Ending)
    requires registered ==> |messages| >= 2 && ParseMlkemRequest(messages[0]).Ok? && ParseMlkemEncaps(messages[1]).Ok?
  {
    && after.guard == before.guard && after.log == before.log
    && after.registry == (if registered
                          then before.registry[SessionOf(kem, messages).0 := SessionOf(kem, messages).1]
                          else before.registry)
    && (forall c :: after.Tally(c) == before.Tally(c)
         + One(c == MlkemSessionsEstablished && registered)
         + One(c == MessagesRejected && ending.error.AuthenticationError?)
         + One(c == Errors && (ending.error.ProtocolError? || ending.error.OsError?)))
  }

  /** What one connection does, for any bytes. */
  lemma HandleMeaning(t: Table, kem: KemTable, keys: map<string, Key>, desk: C.Desk, data: bytes, replies: C.Replies)
    ensures var (messages, closing) := Drain(data);
            var (d, ending) := C.Handle(t, kem, keys, desk, data, replies);
            if Establishes(t, keys, messages, replies) then
              var (sessionId, session) := SessionOf(kem, messages);
              Talk(t, session.key, sessionId, messages[2..]).Connection(desk, d, ending, closing)
            else
              && ending == Failure(t, keys, messages, closing, replies)
              && NeverServed(kem, desk, d, messages, Registers(t, keys, messages, replies), ending)
  {
    hide C.Establish, C.Receive, C.Settle, Establishes, Registers, Authentic, SessionOf, Drain, Count, Talk.Ends,
         Talk.Connection;
    var (messages, closing) := Drain(data);
    EstablishMeaning(t, kem, keys, desk, data, replies);
    DrainEnds(data);
    var (d, established) := C.Establish(t, kem, keys, desk, data, replies);
    match established
    case Failed(ending) =>
      C.SettleTallies(d, ending);
      SettleKeeps(d, ending);
      RegistersParsed(t, keys, messages, replies);
      EstablishesRegisters(t, keys, messages, replies);
    case Live(sessionId, key, rest) =>
      EstablishesRegisters(t, keys, messages, replies);
      RegistersParsed(t, keys, messages, replies);
      var talk := Talk(t, key, sessionId, messages[2..]);
      ReceiveMeaning(t, d, rest, key, sessionId);
      var (received, ending) := C.Receive(t, d, rest, key, sessionId);
      Assemble(talk, desk, d, received, ending, closing, SessionOf(kem, messages));
  }

  lemma SettleKeeps(desk: C.Desk, ending: C.Ending)
    ensures var d := C.Settle(desk, ending); d.guard == desk.guard && d.log == desk.log && d.registry == desk.registry
  {
  }

  lemma RegistersParsed(t: Table, keys: map<string, Key>, messages: seq<Message>, replies: C.Replies)
    ensures Registers(t, keys, messages, replies) ==>
              |messages| >= 2 && ParseMlkemRequest(messages[0]).Ok? && ParseMlkemEncaps(messages[1]).Ok?
  {
  }

  lemma EstablishesRegisters(t: Table, keys: map<string, Key>, messages: seq<Message>, replies: C.Replies)
    ensures Establishes(t, keys, messages, replies) ==> Registers(t, keys, messages, replies)
  {
  }

  /** The session's entry and count, what was received, the count of the ending, and the eviction. */
  lemma Assemble(talk: Talk, before: C.Desk, registered: C.Desk, received: C.Desk, ending: C.Ending, closing: Exn,
                 session: (string, C.Session))
    requires closing == ConnectionClosed || closing == ProtocolError
    requires session.0 == talk.sessionId && Registered(before, registered, session)
    requires talk.Ends(registered, received, ending, closing, talk.StopFrom(0))
    ensures var settled := C.Settle(received, ending);
            talk.Connection(before, settled.(registry := settled.registry - {talk.sessionId}), ending, closing)
  {
    hide Raised, NewOnes, Talk.StopFrom, Count, Bump, C.ContentOf;
    C.SettleTallies(received, ending);
    SettleKeeps(received, ending);
    var i := talk.StopFrom(0);
    ViolationErrors(talk, i);
    Evicted(before.registry, session);
  }

  lemma ViolationErrors(talk: Talk, i: nat)
    requires i < |talk.messages| ==> talk.ContentAt(i).Violation?
    ensures i < |talk.messages| ==> talk.ContentAt(i).error.ProtocolError? || talk.ContentAt(i).error.Unhandled?
  {
    hide ParseReading;
  }

  lemma Evicted(registry: map<string, C.Session>, session: (string, C.Session))
    ensures registry[session.0 := session.1] - {session.0} == registry - {session.0}
  {
  }

  // ----- a gateway's own connection -----

  /** On a gateway's own two messages, whatever follows, the session is established with its id and
      the key its ciphertext decapsulates to, and what follows is left unread. */
  lemma OwnHandshakeEstablishes(setup: Handshake.Setup, carried: bytes, desk: C.Desk, rest: bytes)
    requires setup.Valid() && |carried| == MLKEM768_CIPHERTEXT_BYTES
    requires Fits(setup.Request()) && Fits(setup.Encaps(carried))
    ensures var data := EncodeMessage(setup.Request()) + (EncodeMessage(setup.Encaps(carried)) + rest);
            var replies := C.Replies(true, true);
            var (d, established) := C.Establish(setup.table, setup.kem, setup.gatewayKeys, desk, data, replies);
            var key := DeriveSessionKey(Decapsulate(setup.kem, carried));
            && established == C.Live(setup.sessionId, key, rest)
            && d.registry == desk.registry[setup.sessionId := C.Session(key, setup.gatewayId)]
  {
    hide Handshake.Setup.Request, Handshake.Setup.Encaps, Handshake.Setup.Valid, ReadMessage, EncodeMessage,
         C.OnRequest, ParseMlkemEncaps, Decapsulate, WellFormedMessage;
    Handshake.RequestIsRead(setup);
    Handshake.EncapsIsRead(setup, carried);
    OwnHandshakeIsWellFormed(setup, carried);
    ReadFrame(setup.Request(), EncodeMessage(setup.Encaps(carried)) + rest);
    ReadFrame(setup.Encaps(carried), rest);
  }

  lemma OwnHandshakeIsWellFormed(setup: Handshake.Setup, carried: bytes)
    ensures WellFormedMessage(setup.Request()) && WellFormedMessage(setup.Encaps(carried))
  {
    hide Base64.Encode;
  }

  /** A reading the gateway wrapped: where it was encrypted. */
  datatype Own = Own(nonce: bytes, ciphertext: bytes)

  function OwnMessage(sessionId: string, own: Own): Message {
    BuildProtectedReading(sessionId, own.nonce, own.ciphertext)
  }

  function OwnMessages(sessionId: string, owns: seq<Own>): (messages: seq<Message>)
    ensures |messages| == |owns|
  {
    seq(|owns|, i requires 0 <= i < |owns| => OwnMessage(sessionId, owns[i]))
  }

  /** What was wrapped, as the cloud takes it. */
  function OwnContent(t: Table, key: Key, sessionId: string, own: Own): C.Content {
    var slot := ProtectedSlot(key, sessionId, own.nonce, own.ciphertext);
    if slot in t then C.ReadingContent(ParseReading(t[slot])) else C.Nothing
  }

  /** It is a valid reading with a string id and an integer sequence, and its frame is within the cap. */
  ghost predicate IsOwn(t: Table, key: Key, sessionId: string, own: Own) {
    && |own.nonce| == NONCE_LENGTH && Fits(OwnMessage(sessionId, own))
    && OwnContent(t, key, sessionId, own).Reading?
  }

  function OwnArrivals(t: Table, key: Key, sessionId: string, owns: seq<Own>): (arrivals: seq<Arrival>)
    ensures |arrivals| == |owns|
  {
    seq(|owns|, i requires 0 <= i < |owns| =>
      var c := OwnContent(t, key, sessionId, owns[i]); if c.Reading? then c.arrival else Arrival("", 0))
  }

  function OwnReadings(t: Table, key: Key, sessionId: string, owns: seq<Own>, indices: seq<nat>): seq<Message> {
    seq(|indices|, i requires 0 <= i < |indices| =>
      if indices[i] < |owns| && OwnContent(t, key, sessionId, owns[indices[i]]).Reading?
      then OwnContent(t, key, sessionId, owns[indices[i]]).reading
      else [])
  }

  lemma OwnIsTaken(t: Table, key: Key, sessionId: string, own: Own)
    requires IsOwn(t, key, sessionId, own) && sessionId != ""
    ensures C.ContentOf(t, key, sessionId, OwnMessage(sessionId, own)) == OwnContent(t, key, sessionId, own)
  {
    hide SessionAad, ParseReading, Fits, C.ReadingContent, Base64.Encode, Base64.Decode;
    var m := OwnMessage(sessionId, own);
    GetAt(m, 0);
    GetAt(m, 1);
    GetAt(m, 2);
    GetAt(m, 3);
    Base64.RoundTrip(own.nonce);
    Base64.RoundTrip(own.ciphertext);
    hide Get;
  }

  lemma OwnTalk(t: Table, key: Key, sessionId: string, owns: seq<Own>)
    requires sessionId != "" && forall i | 0 <= i < |owns| :: IsOwn(t, key, sessionId, owns[i])
    ensures var talk := Talk(t, key, sessionId, OwnMessages(sessionId, owns));
            && talk.Presented() == Somes(OwnArrivals(t, key, sessionId, owns))
            && talk.StopFrom(0) == |owns|
            && forall i | 0 <= i < |owns| ::
                 OwnContent(t, key, sessionId, owns[i]).Reading?
                 && talk.ReadingAt(i) == OwnContent(t, key, sessionId, owns[i]).reading
  {
    hide C.ContentOf, OwnMessage, OwnContent, Fits;
    var talk := Talk(t, key, sessionId, OwnMessages(sessionId, owns));
    forall i | 0 <= i < |owns|
      ensures talk.ContentAt(i) == OwnContent(t, key, sessionId, owns[i])
    {
      OwnIsTaken(t, key, sessionId, owns[i]);
    }
  }

  lemma OwnFrames(setup: Handshake.Setup, carried: bytes, owns: seq<Own>)
    requires Fits(setup.Request()) && Fits(setup.Encaps(carried))
    requires forall i | 0 <= i < |owns| :: Fits(OwnMessage(setup.sessionId, owns[i]))
    ensures var readings := OwnMessages(setup.sessionId, owns);
            var data := EncodeMessage(setup.Request()) + (EncodeMessage(setup.Encaps(carried)) + EncodeAll(readings));
            Drain(data) == ([setup.Request(), setup.Encaps(carried)] + readings, ConnectionClosed)
  {
    hide Handshake.Setup.Request, Handshake.Setup.Encaps, EncodeMessage, Drain, WellFormedMessage,
         BuildProtectedReading;
    var readings := OwnMessages(setup.sessionId, owns);
    var messages := [setup.Request(), setup.Encaps(carried)] + readings;
    OwnHandshakeIsWellFormed(setup, carried);
    forall i | 0 <= i < |messages|
      ensures WellFormedMessage(messages[i]) && Fits(messages[i])
    {
      if i > 1 {
        assert messages[i] == OwnMessage(setup.sessionId, owns[i - 2]);
        ProtectedIsWellFormed(setup.sessionId, owns[i - 2].nonce, owns[i - 2].ciphertext);
      }
    }
    assert messages[1..][1..] == readings && messages[1..][0] == setup.Encaps(carried);
    StreamRoundTrip(messages);
  }

  /** A registered gateway's own connection, with both replies sent: its session is established, the
      readings that are new from where the guard stands enter the log, in order, all others are
      dropped, and when the gateway closes the session is evicted. */
  lemma OwnReadingsStored(setup: Handshake.Setup, carried: bytes, desk: C.Desk, owns: seq<Own>)
    requires setup.Valid() && |carried| == MLKEM768_CIPHERTEXT_BYTES
    requires Fits(setup.Request()) && Fits(setup.Encaps(carried))
    requires forall i | 0 <= i < |owns| ::
               IsOwn(setup.table, DeriveSessionKey(Decapsulate(setup.kem, carried)), setup.sessionId, owns[i])
    ensures var key := DeriveSessionKey(Decapsulate(setup.kem, carried));
            var readings := EncodeAll(OwnMessages(setup.sessionId, owns));
            var data := EncodeMessage(setup.Request()) + (EncodeMessage(setup.Encaps(carried)) + readings);
            var (d, ending) := C.Handle(setup.table, setup.kem, setup.gatewayKeys, desk, data, C.Replies(true, true));
            var presented := Somes(OwnArrivals(setup.table, key, setup.sessionId, owns));
            var kept := NewOnes(desk.guard, presented, |owns|);
            && ending == C.Stream(ConnectionClosed)
            && d.registry == desk.registry - {setup.sessionId}
            && d.log == desk.log + OwnReadings(setup.table, key, setup.sessionId, owns, kept)
            && Raised(desk.guard, d.guard, presented, |owns|)
            && d.Tally(MessagesReceived) == desk.Tally(MessagesReceived) + |owns|
            && d.Tally(MessagesProcessed) == desk.Tally(MessagesProcessed) + |kept|
            && d.Tally(MessagesRejected) == desk.Tally(MessagesRejected) + |owns| - |kept|
            && d.Tally(MlkemSessionsEstablished) == desk.Tally(MlkemSessionsEstablished) + 1
            && d.Tally(Errors) == desk.Tally(Errors)
  {
    hide C.Handle, C.ContentOf, IsOwn, OwnContent, Handshake.Setup.Request, Handshake.Setup.Encaps, Raised, NewOnes,
         Fits, Count, Drain, EncodeMessage, EncodeAll, Decapsulate, OwnMessages, ParseMlkemRequest, ParseMlkemEncaps,
         TagVerifies, GatewayClaims, Talk.StopFrom;
    var key := DeriveSessionKey(Decapsulate(setup.kem, carried));
    var readings := OwnMessages(setup.sessionId, owns);
    var messages := [setup.Request(), setup.Encaps(carried)] + readings;
    Handshake.RequestIsRead(setup);
    Handshake.EncapsIsRead(setup, carried);
    OwnFrames(setup, carried, owns) by {
      forall i | 0 <= i < |owns|
        ensures Fits(OwnMessage(setup.sessionId, owns[i]))
      {
        OwnFits(setup.table, key, setup.sessionId, owns[i]);
      }
    }
    OwnTalk(setup.table, key, setup.sessionId, owns);
    HandleMeaning(setup.table, setup.kem, setup.gatewayKeys, desk,
                  EncodeMessage(setup.Request()) + (EncodeMessage(setup.Encaps(carried)) + EncodeAll(readings)),
                  C.Replies(true, true));
    assert messages[2..] == readings;
    var talk := Talk(setup.table, key, setup.sessionId, readings);
    var kept := talk.New(desk.guard, |owns|);
    assert talk.Readings(kept) == OwnReadings(setup.table, key, setup.sessionId, owns, kept);
  }

  lemma OwnFits(t: Table, key: Key, sessionId: string, own: Own)
    requires IsOwn(t, key, sessionId, own)
    ensures Fits(OwnMessage(sessionId, own))
  {
  }
}
