/** One whole connection at the gateway (gateway/gateway.py): what the server does with everything a
    peer sends, from the first byte to the end, said without its loop. Any bytes are a sequence of
    messages and then the error that ends them. */
module GatewayConnection {
  import opened Wrappers
  import opened Text
  import opened Protocol
  import opened Crypto
  import opened GatewayProcessing
  import opened Replay
  import opened Accounting
  import Base64
  import G = Gateway
  import Device

  /** How the channel takes the i-th reading it is given. */
  function Outcome(script: seq<G.SendOutcome>, i: nat): G.SendOutcome {
    if i < |script| then script[i] else G.Sent
  }

  function Later(script: seq<G.SendOutcome>, i: nat): seq<G.SendOutcome> {
    if i < |script| then script[i..] else []
  }

  /** What an admitted device's connection brings. */
  datatype Talk = Talk(table: Table, key: Key, deviceId: string, messages: seq<Message>) {
    function ContentAt(i: nat): G.Content
      requires i < |messages|
    {
      G.ContentOf(table, key, deviceId, messages[i])
    }

    function Presented(): (presented: seq<Option<Arrival>>)
      ensures |presented| == |messages|
    {
      seq(|messages|, i requires 0 <= i < |messages| =>
        if ContentAt(i).Reading? then Some(Arrival(deviceId, ContentAt(i).sequence)) else None)
    }

    /** The first n messages that bring a new reading. */
    ghost function New(guard: LastSeen, n: nat): (indices: seq<nat>)
      requires n <= |messages|
      ensures |indices| <= n
    {
      NewOnes(guard, Presented(), n)
    }

    function TextAt(i: nat): bytes {
      if i < |messages| && ContentAt(i).Reading? then ContentAt(i).plaintext else []
    }

    function Texts(indices: seq<nat>): seq<bytes> {
      seq(|indices|, i requires 0 <= i < |indices| => TextAt(indices[i]))
    }

    /** Message i ends the connection: it violates the protocol, or the channel does not take it. */
    ghost predicate Stops(guard: LastSeen, script: seq<G.SendOutcome>, i: nat)
      requires i < |messages|
    {
      || ContentAt(i).Violation?
      || (IsNew(guard, Presented(), i) && Outcome(script, |New(guard, i)|) != G.Sent)
    }

    /** The first message from n on that ends the connection, or how many there are. */
    ghost function StopFrom(guard: LastSeen, script: seq<G.SendOutcome>, n: nat): (i: nat)
      requires n <= |messages|
      ensures n <= i <= |messages| && forall j | n <= j < i :: !Stops(guard, script, j)
      ensures i < |messages| ==> Stops(guard, script, i)
      decreases |messages| - n
    {
      if n == |messages| || Stops(guard, script, n) then n else StopFrom(guard, script, n + 1)
    }

    /** The desk after `read` messages of which the new ones up to `sent` went out and `dropped` were
        rejected; nothing else has moved. */
    ghost predicate Served(before: G.Desk, after: G.Desk, read: nat, sent: nat, dropped: nat)
      requires read <= |messages|
    {
      var kept := New(before.guard, read);
      && Raised(before.guard, after.guard, Presented(), read)
      && after.seen == before.seen && after.script == Later(before.script, |kept|)
      && sent <= |kept| && after.delivered == before.delivered + Texts(kept[..sent])
      && (forall c :: after.Tally(c) == before.Tally(c)
           + (match c
              case MessagesReceived => read
              case MessagesProcessed => |kept|
              case MessagesForwarded => sent
              case MessagesRejected => dropped
              case _ => 0))
    }

    /** The desk after n messages that all left the connection open. */
    ghost predicate ServedAll(before: G.Desk, after: G.Desk, n: nat)
      requires n <= |messages|
    {
      Served(before, after, n, |New(before.guard, n)|, n - |New(before.guard, n)|)
    }

    /** How many messages were read when the connection ends at message i. */
    function Through(i: nat): (n: nat)
      requires i <= |messages|
      ensures n <= |messages|
    {
      if i < |messages| then i + 1 else i
    }

    /** Why the connection ends at message i, or after the last one with the error that closes it. */
    ghost function EndingAt(guard: LastSeen, script: seq<G.SendOutcome>, closing: Exn, i: nat): G.Ending
      requires i <= |messages|
    {
      if i == |messages| then G.Stream(closing)
      else if ContentAt(i).Violation? then G.BadReading(ProtocolError)
      else if Outcome(script, |New(guard, i)|) == G.Refused then G.Forwarding(CryptoError)
      else G.Forwarding(Unhandled)
    }

    /** The desk and the ending when the connection ends at message i: up to there everything new was
        delivered and everything else dropped; a last reading that the channel did not take has moved
        the guard and is processed, and is not forwarded. */
    ghost predicate Ends(before: G.Desk, after: G.Desk, ending: G.Ending, closing: Exn, i: nat)
      requires i <= |messages|
    {
      var sent := |New(before.guard, i)|;
      Served(before, after, Through(i), sent, i - sent)
      && ending == EndingAt(before.guard, before.script, closing, i)
    }

    /** What a whole connection does once its hello is admitted, from the desk before the hello to the
        desk after the handler has counted how it ended. */
    ghost predicate Connection(before: G.Desk, after: G.Desk, ending: G.Ending, closing: Exn) {
      var i := StopFrom(before.guard, before.script, 0);
      var read, sent := Through(i), |New(before.guard, i)|;
      var kept := New(before.guard, read);
      && Raised(before.guard, after.guard, Presented(), read)
      && after.seen == before.seen + {deviceId} && after.script == Later(before.script, |kept|)
      && sent <= |kept| && after.delivered == before.delivered + Texts(kept[..sent])
      && ending == EndingAt(before.guard, before.script, closing, i)
      && (forall c :: after.Tally(c) == before.Tally(c)
           + (match c
              case MessagesReceived => read
              case MessagesProcessed => |kept|
              case MessagesForwarded => sent
              case MessagesRejected => i - sent
              case FallbackActivations => 1
              case LegacyDevicesDetected => One(deviceId !in before.seen)
              case Errors => One(ending != G.Stream(ConnectionClosed) && ending != G.Forwarding(Unhandled))
              case MlkemSessionsEstablished => 0))
    }
  }

  // ----- one message -----

  lemma NothingServed(talk: Talk, desk: G.Desk)
    ensures talk.ServedAll(desk, desk, 0)
  {
    NothingRaised(desk.guard, talk.Presented());
    assert desk.delivered + [] == desk.delivered;
  }

  lemma NewGrows(talk: Talk, guard: LastSeen, n: nat)
    requires n < |talk.messages|
    ensures talk.New(guard, n + 1) == talk.New(guard, n) + if IsNew(guard, talk.Presented(), n) then [n] else []
    ensures talk.Texts(talk.New(guard, n) + [n]) == talk.Texts(talk.New(guard, n)) + [talk.TextAt(n)]
  {
  }

  lemma LaterOnce(script: seq<G.SendOutcome>, i: nat)
    ensures G.NextOutcome(Later(script, i)) == Outcome(script, i)
    ensures G.LaterOutcomes(Later(script, i)) == Later(script, i + 1)
  {
  }

  lemma GuardAfter(talk: Talk, before: G.Desk, desk: G.Desk, n: nat)
    requires n < |talk.messages| && Raised(before.guard, desk.guard, talk.Presented(), n)
    ensures var c := talk.ContentAt(n);
            var kept := c.Reading? && c.sequence > Last(desk.guard, talk.deviceId);
            && (kept <==> IsNew(before.guard, talk.Presented(), n))
            && Raised(before.guard, if kept then Record(desk.guard, talk.deviceId, c.sequence) else desk.guard,
                      talk.Presented(), n + 1)
  {
    hide Raised, G.ContentOf;
    if talk.Presented()[n].Some? {
      AcceptsIffNew(before.guard, desk.guard, talk.Presented(), n);
      RecordRaises(before.guard, desk.guard, talk.Presented(), n);
    } else {
      NoneRaisesNothing(before.guard, desk.guard, talk.Presented(), n);
    }
  }

  /** A message that does not stop the connection. */
  lemma TurnGoesOn(talk: Talk, before: G.Desk, desk: G.Desk, n: nat)
    requires n < |talk.messages| && talk.ServedAll(before, desk, n) && !talk.Stops(before.guard, before.script, n)
    ensures var (d, ending) := G.OnReading(talk.table, desk, talk.messages[n], talk.key, talk.deviceId);
            ending.None? && talk.ServedAll(before, d, n + 1)
  {
    hide Raised, G.ContentOf, G.OnReading, NewOnes, IsNew, Later, Outcome, Record, Count;
    GuardAfter(talk, before, desk, n);
    G.TurnMeaning(talk.table, desk, talk.messages[n], talk.key, talk.deviceId);
    NewGrows(talk, before.guard, n);
    LaterOnce(before.script, |talk.New(before.guard, n)|);
    var kept, later := talk.New(before.guard, n), talk.New(before.guard, n + 1);
    assert kept[..|kept|] == kept && later[..|later|] == later;
  }

  /** And one that does. */
  lemma TurnStops(talk: Talk, before: G.Desk, desk: G.Desk, n: nat, closing: Exn)
    requires n < |talk.messages| && talk.ServedAll(before, desk, n) && talk.Stops(before.guard, before.script, n)
    ensures var (d, ending) := G.OnReading(talk.table, desk, talk.messages[n], talk.key, talk.deviceId);
            ending.Some? && talk.Ends(before, d, ending.value, closing, n)
  {
    hide Raised, G.ContentOf, G.OnReading, NewOnes, IsNew, Later, Outcome, Record, Count;
    GuardAfter(talk, before, desk, n);
    G.TurnMeaning(talk.table, desk, talk.messages[n], talk.key, talk.deviceId);
    NewGrows(talk, before.guard, n);
    LaterOnce(before.script, |talk.New(before.guard, n)|);
    var kept, later := talk.New(before.guard, n), talk.New(before.guard, n + 1);
    assert kept[..|kept|] == kept && later[..|kept|] == kept;
  }

  // ----- all of them -----

  lemma {:induction false} ServeFrom(talk: Talk, before: G.Desk, desk: G.Desk, data: bytes, closing: Exn, n: nat)
    requires n <= |talk.messages| && Drain(data) == (talk.messages[n..], closing)
    requires talk.ServedAll(before, desk, n)
    ensures var (d, ending) := G.Serve(talk.table, desk, data, talk.key, talk.deviceId);
            talk.Ends(before, d, ending, closing, talk.StopFrom(before.guard, before.script, n))
    decreases |talk.messages| - n
  {
    hide Talk.Served, Talk.Stops, ReadMessage, G.OnReading, NewOnes;
    if n < |talk.messages| {
      assert talk.messages[n..][0] == talk.messages[n] && talk.messages[n..][1..] == talk.messages[n + 1..];
      var (d, ending) := G.OnReading(talk.table, desk, talk.messages[n], talk.key, talk.deviceId);
      if talk.Stops(before.guard, before.script, n) {
        TurnStops(talk, before, desk, n, closing);
      } else {
        TurnGoesOn(talk, before, desk, n);
        ServeFrom(talk, before, d, ReadMessage(data).1, closing, n + 1);
      }
    }
  }

  /** What the serve loop does with any bytes. */
  lemma ServeMeaning(t: Table, desk: G.Desk, data: bytes, key: Key, deviceId: string)
    ensures var (messages, closing) := Drain(data);
            var talk := Talk(t, key, deviceId, messages);
            var (d, ending) := G.Serve(t, desk, data, key, deviceId);
            talk.Ends(desk, d, ending, closing, talk.StopFrom(desk.guard, desk.script, 0))
  {
    hide Talk.Served, Talk.Stops, G.Serve, Drain;
    var (messages, closing) := Drain(data);
    var talk := Talk(t, key, deviceId, messages);
    NothingServed(talk, desk);
    assert messages[0..] == messages;
    ServeFrom(talk, desk, desk, data, closing, 0);
  }

  // ----- the hello and all of them -----

  /** A registered device whose key tagged these claims, legacy only. */
  predicate Admits(t: Table, keys: map<string, Key>, hello: Hello) {
    && hello.deviceId in keys && VerifyHelloAuth(t, keys[hello.deviceId], hello)
    && CAP_CHACHA20_POLY1305 in hello.capabilities && CAP_MLKEM_768 !in hello.capabilities
  }

  /** Nothing but this counter has moved, by one. */
  ghost predicate OnlyCounts(before: G.Desk, after: G.Desk, counted: set<Counter>) {
    && after.guard == before.guard && after.seen == before.seen && after.script == before.script
    && after.delivered == before.delivered
    && forall c :: after.Tally(c) == before.Tally(c) + One(c in counted)
  }

  /** What one connection does, for any bytes: no message, no hello, a hello that is not admitted, or
      a served device. */
  lemma HandleMeaning(t: Table, keys: map<string, Key>, desk: G.Desk, data: bytes)
    ensures var (messages, closing) := Drain(data);
            var (d, ending) := G.Handle(t, keys, desk, data);
            if messages == [] then
              && ending == G.Stream(closing)
              && OnlyCounts(desk, d, if closing == ConnectionClosed then {} else {Errors})
            else
              match ParseHello(messages[0])
              case Err(_) => ending == G.BadHello(ProtocolError) && OnlyCounts(desk, d, {Errors})
              case Ok(hello) =>
                if !Admits(t, keys, hello) then ending == G.Declined && OnlyCounts(desk, d, {MessagesRejected})
                else Talk(t, keys[hello.deviceId], hello.deviceId, messages[1..]).Connection(desk, d, ending, closing)
  {
    hide G.Serve, G.Welcome, ReadMessage, ParseHello, VerifyHelloAuth, Talk.Connection, Count, Bump, HasType, HasText,
         HasStrings;
    var (messages, closing) := Drain(data);
    var (connected, ending) := G.Connection(t, keys, desk, data);
    DrainEnds(data);
    G.SettleTallies(connected, ending);
    if messages != [] {
      HelloIff(messages[0]);
      if ParseHello(messages[0]).Ok? {
        var hello := ParseHello(messages[0]).value;
        G.AdmissionMeaning(t, keys, desk, hello);
        if Admits(t, keys, hello) {
          AdmittedMeaning(t, keys, desk, data, hello);
        }
      }
    }
  }

  /** The hello's counts, what was served, and the count of the ending. */
  lemma Assemble(talk: Talk, before: G.Desk, welcomed: G.Desk, served: G.Desk, ending: G.Ending, closing: Exn)
    requires closing == ConnectionClosed || closing == ProtocolError
    requires welcomed.guard == before.guard && welcomed.script == before.script
    requires welcomed.delivered == before.delivered && welcomed.seen == before.seen + {talk.deviceId}
    requires forall c :: welcomed.Tally(c) == before.Tally(c) + One(c == FallbackActivations)
               + One(c == LegacyDevicesDetected && talk.deviceId !in before.seen)
    requires talk.Ends(welcomed, served, ending, closing, talk.StopFrom(before.guard, before.script, 0))
    ensures talk.Connection(before, G.Settle(served, ending), ending, closing)
  {
    hide Raised, NewOnes, Talk.StopFrom, Count, Bump, G.ContentOf;
    var i := talk.StopFrom(before.guard, before.script, 0);
    var d := G.Settle(served, ending);
    G.SettleTallies(served, ending);
    assert d.guard == served.guard && d.script == served.script && d.delivered == served.delivered;
    assert G.Counted(ending) <==> ending != G.Stream(ConnectionClosed) && ending != G.Forwarding(Unhandled);
  }

  lemma AdmittedMeaning(t: Table, keys: map<string, Key>, desk: G.Desk, data: bytes, hello: Hello)
    requires ReadMessage(data).0.Ok? && ParseHello(ReadMessage(data).0.value) == Ok(hello) && Admits(t, keys, hello)
    ensures var (messages, closing) := Drain(data);
            var (d, ending) := G.Handle(t, keys, desk, data);
            Talk(t, keys[hello.deviceId], hello.deviceId, messages[1..]).Connection(desk, d, ending, closing)
  {
    hide G.Serve, G.Welcome, G.Settle, ReadMessage, ParseHello, VerifyHelloAuth, Count, Talk.Ends, Talk.Connection;
    var (messages, closing) := Drain(data);
    var id, rest := hello.deviceId, ReadMessage(data).1;
    G.AdmissionMeaning(t, keys, desk, hello);
    var welcomed := G.Welcome(t, keys, desk, hello).0;
    var (served, ending) := G.Serve(t, welcomed, rest, keys[id], id);
    ServeMeaning(t, welcomed, rest, keys[id], id);
    DrainEnds(data);
    G.SettleTallies(served, ending);
    assert messages[1..] == Drain(rest).0;
    Assemble(Talk(t, keys[id], id, messages[1..]), desk, welcomed, served, ending, closing);
  }

  // ----- a device's own connection -----

  /** A reading the device sealed for its id and this sequence. */
  datatype Own = Own(sequence: int, slot: Slot)

  ghost predicate IsOwn(t: Table, key: Key, deviceId: string, own: Own) {
    && own.slot in t && own.slot.key == key && own.slot.aad == LegacyAad(deviceId, own.sequence)
    && |own.slot.nonce| == NONCE_LENGTH && ParseReading(t[own.slot]).Ok? && Fits(OwnMessage(deviceId, own))
  }

  function OwnMessage(deviceId: string, own: Own): Message {
    LegacyReading(deviceId, own.sequence, own.slot.nonce, own.slot.ciphertext)
  }

  function OwnMessages(deviceId: string, owns: seq<Own>): (messages: seq<Message>)
    ensures |messages| == |owns|
  {
    seq(|owns|, i requires 0 <= i < |owns| => OwnMessage(deviceId, owns[i]))
  }

  function OwnArrivals(deviceId: string, owns: seq<Own>): (arrivals: seq<Arrival>)
    ensures |arrivals| == |owns|
  {
    seq(|owns|, i requires 0 <= i < |owns| => Arrival(deviceId, owns[i].sequence))
  }

  lemma OwnContent(t: Table, key: Key, deviceId: string, own: Own)
    requires IsOwn(t, key, deviceId, own)
    ensures G.ContentOf(t, key, deviceId, OwnMessage(deviceId, own)) == G.Reading(t[own.slot], own.sequence)
  {
    hide LegacyAad, ParseReading, Fits, Base64.Encode, Base64.Decode;
    var m := OwnMessage(deviceId, own);
    GetAt(m, 0);
    GetAt(m, 1);
    GetAt(m, 2);
    GetAt(m, 3);
    GetAt(m, 4);
    Base64.RoundTrip(own.slot.nonce);
    Base64.RoundTrip(own.slot.ciphertext);
    hide Get;
  }

  lemma OwnTalk(t: Table, key: Key, deviceId: string, owns: seq<Own>)
    requires forall i | 0 <= i < |owns| :: IsOwn(t, key, deviceId, owns[i])
    ensures var talk := Talk(t, key, deviceId, OwnMessages(deviceId, owns));
            && talk.Presented() == Somes(OwnArrivals(deviceId, owns))
            && forall i | 0 <= i < |owns| ::
                 owns[i].slot in t && !talk.ContentAt(i).Violation? && talk.TextAt(i) == t[owns[i].slot]
  {
    hide IsOwn, G.ContentOf, OwnMessage;
    var talk := Talk(t, key, deviceId, OwnMessages(deviceId, owns));
    forall i | 0 <= i < |owns|
      ensures owns[i].slot in t && talk.ContentAt(i) == G.Reading(t[owns[i].slot], owns[i].sequence)
    {
      OwnContent(t, key, deviceId, owns[i]);
      assert owns[i].slot in t by { InTable(t, key, deviceId, owns[i]); }
    }
  }

  lemma InTable(t: Table, key: Key, deviceId: string, own: Own)
    requires IsOwn(t, key, deviceId, own)
    ensures own.slot in t
  {
  }

  lemma OwnFrames(t: Table, key: Key, deviceId: string, hello: Message, owns: seq<Own>)
    requires WellFormedMessage(hello) && Fits(hello)
    requires forall i | 0 <= i < |owns| :: IsOwn(t, key, deviceId, owns[i])
    ensures Drain(EncodeMessage(hello) + EncodeAll(OwnMessages(deviceId, owns)))
         == ([hello] + OwnMessages(deviceId, owns), ConnectionClosed)
  {
    hide LegacyAad, ParseReading, EncodeMessage, Drain, WellFormedMessage, LegacyReading;
    var readings := OwnMessages(deviceId, owns);
    var messages := [hello] + readings;
    forall i | 0 <= i < |messages|
      ensures WellFormedMessage(messages[i]) && Fits(messages[i])
    {
      if i > 0 {
        assert messages[i] == OwnMessage(deviceId, owns[i - 1]);
        LegacyIsWellFormed(deviceId, owns[i - 1].sequence, owns[i - 1].slot.nonce, owns[i - 1].slot.ciphertext);
      }
    }
    assert messages[0] == hello && messages[1..] == readings;
    StreamRoundTrip(messages);
  }

  /** A registered device's own connection, with a channel that takes everything: the readings that are
      new from where the guard stands are delivered, in order and byte for byte, all others are
      dropped, and the connection ends with the peer's clean close. */
  lemma OwnReadingsDelivered(t: Table, keys: map<string, Key>, desk: G.Desk, deviceId: string, nonce: bytes,
                             tag: bytes, owns: seq<Own>)
    requires deviceId in keys && deviceId != "" && |nonce| == NONCE_LENGTH && tag != []
    requires Slot(keys[deviceId], nonce, HelloClaims(deviceId, [CAP_CHACHA20_POLY1305]), tag) in t
    requires Fits(Device.BuildHello(deviceId, [CAP_CHACHA20_POLY1305], nonce, tag))
    requires forall i | 0 <= i < |owns| :: IsOwn(t, keys[deviceId], deviceId, owns[i])
    requires forall i | 0 <= i < |desk.script| :: desk.script[i] == G.Sent
    ensures var hello := Device.BuildHello(deviceId, [CAP_CHACHA20_POLY1305], nonce, tag);
            var data := EncodeMessage(hello) + EncodeAll(OwnMessages(deviceId, owns));
            var (d, ending) := G.Handle(t, keys, desk, data);
            var presented := Somes(OwnArrivals(deviceId, owns));
            var kept := NewOnes(desk.guard, presented, |owns|);
            && ending == G.Stream(ConnectionClosed)
            && d.delivered == desk.delivered + OwnTexts(t, owns, kept)
            && Raised(desk.guard, d.guard, presented, |owns|)
            && d.Tally(MessagesReceived) == desk.Tally(MessagesReceived) + |owns|
            && d.Tally(MessagesProcessed) == desk.Tally(MessagesProcessed) + |kept|
            && d.Tally(MessagesForwarded) == desk.Tally(MessagesForwarded) + |kept|
            && d.Tally(MessagesRejected) == desk.Tally(MessagesRejected) + |owns| - |kept|
            && d.Tally(Errors) == desk.Tally(Errors)
  {
    hide G.Handle, IsOwn, HelloClaims, Device.BuildHello, Raised, NewOnes, Fits, Count, G.ContentOf, Drain,
         EncodeMessage, EncodeAll, ParseHello, VerifyHelloAuth, OwnMessages;
    var key := keys[deviceId];
    var hello := Device.BuildHello(deviceId, [CAP_CHACHA20_POLY1305], nonce, tag);
    var readings := OwnMessages(deviceId, owns);
    Device.HelloIsWellFormed(deviceId, [CAP_CHACHA20_POLY1305], nonce, tag);
    OwnFrames(t, key, deviceId, hello, owns);
    OwnTalk(t, key, deviceId, owns);
    Device.OwnHelloDecision(t, key, deviceId, [CAP_CHACHA20_POLY1305], nonce, tag);
    FallbackIff(t, ParseHello(hello).value, Some(key));
    HandleMeaning(t, keys, desk, EncodeMessage(hello) + EncodeAll(readings));
    assert ([hello] + readings)[1..] == readings;
    var talk := Talk(t, key, deviceId, readings);
    assert talk.StopFrom(desk.guard, desk.script, 0) == |owns|;
    var kept := talk.New(desk.guard, |owns|);
    assert kept[..|kept|] == kept && talk.Texts(kept) == OwnTexts(t, owns, kept);
  }

  function OwnTexts(t: Table, owns: seq<Own>, indices: seq<nat>): seq<bytes> {
    seq(|indices|, i requires 0 <= i < |indices| =>
      if indices[i] < |owns| && owns[indices[i]].slot in t then t[owns[indices[i]].slot] else [])
  }
}
