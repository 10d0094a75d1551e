/** The gateway's cloud channel (gateway/cloud_channel.py) as one thread uses it: the handshake, the
    retry loop, sending, and invalidation. What the peer and the network do is a parameter. */
module Channel {
  import opened Wrappers
  import opened Text
  import opened Json
  import opened Protocol
  import opened Crypto
  import opened GatewayProcessing
  import opened CloudProcessing
  import opened Accounting
  import Base64
  import Cloud
  import Gateway

  datatype Mode = DISCONNECTED | CONNECTING | ESTABLISHING | ESTABLISHED | FAILED

  /** Who the gateway is, what it pins, and whether it reconnects by itself. */
  datatype Identity = Identity(gatewayId: string, key: Key, pin: Option<Digest>, auto: bool)

  /** One attempt as the world lets it go: everything the peer sends and whether it then closes or
      stays silent until the socket times out, whether the two sends work, whether the library can
      load the peer's key, and the fresh values of the attempt. */
  datatype Dial = Dial(
    reachable: bool,
    incoming: bytes,
    closes: bool,
    requestSent: bool,
    loads: bool,
    encapsSent: bool,
    sessionId: string,
    authNonce: bytes,
    authTag: bytes,
    secret: Secret,
    ciphertext: bytes)

  /** Bytes handed to the socket of one dial. */
  datatype Frame = Frame(sock: nat, data: bytes)

  /** The channel's fields, with what it has encrypted and sent. */
  datatype View = View(
    mode: Mode,
    sessionId: Option<string>,
    sessionKey: Option<Key>,
    sock: Option<nat>,
    reconnecting: bool,
    spawned: nat,
    dialled: nat,
    sealed: Table,
    wire: seq<Frame>,
    counters: Counters)
  {
    predicate Usable() { mode == ESTABLISHED && sock.Some? && sessionKey.Some? }

    function Tally(c: Counter): nat { Count(counters, c) }
  }

  // ----- messages -----

  function RequestMessage(gatewayId: string, nonce: bytes, tag: bytes): Message {
    [Member("type", Str(MSG_MLKEM_REQUEST_PUBKEY)), Member("gateway_id", Str(gatewayId)),
     Member("auth_nonce", Str(Base64.Encode(nonce))), Member("auth_tag", Str(Base64.Encode(tag)))]
  }

  function EncapsMessage(gatewayId: string, sessionId: string, ciphertext: bytes): Message {
    [Member("type", Str(MSG_MLKEM_ENCAPS)), Member("gateway_id", Str(gatewayId)), Member("session_id", Str(sessionId)),
     Member("ciphertext", Str(Base64.Encode(ciphertext)))]
  }

  // ----- specification -----

  /** The next reply; a read that waits for bytes that never come fails. */
  function NextReply(dial: Dial, unread: bytes): (Result<Message>, bytes) {
    if Unfinished(unread) && !dial.closes then (Err(OsError), unread) else ReadMessage(unread)
  }

  /** The first reply must carry the pinned key, which the library must load; what follows it is
      still unread. */
  function PinnedReply(pin: Option<Digest>, dial: Dial): Result<bytes> {
    if !dial.requestSent then Err(OsError)
    else
      var (reply, rest) := NextReply(dial, dial.incoming);
      var m :- reply;
      var raw :- ParseMlkemPubkeyReply(m);
      var _ :- VerifyCloudPublicKey(raw, pin);
      if dial.loads then Ok(rest) else Err(ProtocolError)
  }

  /** The second reply must confirm the attempt's own session id. */
  function Confirmation(dial: Dial, unread: bytes): Result<()> {
    if !dial.encapsSent then Err(OsError)
    else
      var m :- NextReply(dial, unread).0;
      ParseMlkemEstablishedReply(m, dial.sessionId)
  }

  /** How an attempt ends depends on the world and the pin only. */
  function DialResult(pin: Option<Digest>, dial: Dial): Result<()> {
    if !dial.reachable then Err(OsError)
    else
      var rest :- PinnedReply(pin, dial);
      Confirmation(dial, rest)
  }

  function Requested(id: Identity, v: View, dial: Dial): View {
    v.(mode := ESTABLISHING,
       dialled := v.dialled + 1,
       sealed := v.sealed[Slot(id.key, dial.authNonce, GatewayClaims(id.gatewayId), dial.authTag) := []],
       wire := if dial.requestSent
               then
                 var request := RequestMessage(id.gatewayId, dial.authNonce, dial.authTag);
                 v.wire + [Frame(v.dialled, EncodeMessage(request))]
               else v.wire)
  }

  function Encapsulated(id: Identity, v: View, sock: nat, dial: Dial): View {
    if dial.encapsSent
    then v.(wire := v.wire + [Frame(sock, EncodeMessage(EncapsMessage(id.gatewayId, dial.sessionId, dial.ciphertext)))])
    else v
  }

  function Stored(v: View, sock: nat, dial: Dial): View {
    v.(sessionKey := Some(DeriveSessionKey(dial.secret)),
       sessionId := Some(dial.sessionId),
       counters := Bump(v.counters, MlkemSessionsEstablished),
       sock := Some(sock))
  }

  function Once(id: Identity, v: View, dial: Dial): (View, Result<()>) {
    if !dial.reachable then (v, Err(OsError))
    else
      var v1 := Requested(id, v, dial);
      match PinnedReply(id.pin, dial)
      case Err(e) => (v1, Err(e))
      case Ok(rest) =>
        var v2 := Encapsulated(id, v1, v.dialled, dial);
        match Confirmation(dial, rest)
        case Err(e) => (v2, Err(e))
        case Ok(u) => (Stored(v2, v.dialled, dial), Ok(u))
  }

  /** What `connect_and_establish` catches; ConnectionClosedError is not among it. */
  predicate Caught(e: Exn) { e.OsError? || e.ProtocolError? || e.IsCrypto() }

  /** Trying: the script of dials ran out with the loop still retrying. */
  datatype Outcome = Established | GaveUp | Escaped(error: Exn) | Trying

  function Connect(id: Identity, v: View, dials: seq<Dial>, attempts: nat, limit: Option<nat>): (View, Outcome)
    decreases |dials|
  {
    if dials == [] then (v, Trying)
    else
      match Once(id, v.(mode := CONNECTING), dials[0])
      case (v', Ok(_)) => (v'.(mode := ESTABLISHED), Established)
      case (v', Err(e)) =>
        if !Caught(e) then (v', Escaped(e))
        else
          var failed := v'.(mode := DISCONNECTED, counters := Bump(v'.counters, Errors));
          if limit.Some? && attempts + 1 >= limit.value then (failed, GaveUp)
          else Connect(id, failed, dials[1..], attempts + 1, limit)
  }

  function Invalidated(id: Identity, v: View): View {
    v.(sock := None, sessionKey := None, mode := FAILED,
       reconnecting := v.reconnecting || id.auto,
       spawned := if id.auto && !v.reconnecting then v.spawned + 1 else v.spawned)
  }

  /** A usable channel has a session id. */
  predicate Coherent(v: View) { v.sessionKey.Some? ==> v.sessionId.Some? }

  function Send(id: Identity, v: View, reading: bytes, nonce: bytes, ciphertext: bytes, ok: bool)
    : (View, Gateway.SendOutcome)
    requires Coherent(v)
  {
    if !v.Usable() then (v, Gateway.Refused)
    else
      var slot := ProtectedSlot(v.sessionKey.value, v.sessionId.value, nonce, ciphertext);
      var sealed := v.(sealed := v.sealed[slot := reading]);
      if !ok then (Invalidated(id, sealed), Gateway.Refused)
      else
        var data := EncodeMessage(BuildProtectedReading(v.sessionId.value, nonce, ciphertext));
        (sealed.(wire := v.wire + [Frame(v.sock.value, data)]), Gateway.Sent)
  }

  /** The `finally` clause clears the flag however the loop ends. */
  function Reconnect(id: Identity, v: View, dials: seq<Dial>): (View, Outcome) {
    match Connect(id, v, dials, 0, None)
    case (v', Trying) => (v', Trying)
    case (v', outcome) => (v'.(reconnecting := false), outcome)
  }

  // ----- the channel -----

  class CloudChannel {
    const id: Identity
    const metrics: Metrics
    var mode: Mode
    var sessionId: Option<string>
    var sessionKey: Option<Key>
    var sock: Option<nat>
    var reconnecting: bool
    var spawned: nat
    var dialled: nat
    var sealed: Table
    var wire: seq<Frame>

    constructor (id: Identity, metrics: Metrics)
      ensures this.id == id && this.metrics == metrics
      ensures Snapshot() == View(DISCONNECTED, None, None, None, false, 0, 0, map[], [], metrics.counters)
    {
      this.id := id;
      this.metrics := metrics;
      mode, sessionId, sessionKey, sock := DISCONNECTED, None, None, None;
      reconnecting, spawned, dialled, sealed, wire := false, 0, 0, map[], [];
    }

    ghost function Snapshot(): View
      reads this, metrics
    {
      View(mode, sessionId, sessionKey, sock, reconnecting, spawned, dialled, sealed, wire, metrics.counters)
    }

    method IsEstablished() returns (established: bool)
      ensures established == Snapshot().Usable()
    {
      established := mode == ESTABLISHED && sock.Some? && sessionKey.Some?;
    }

    method ConnectAndEstablish(dials: seq<Dial>, limit: Option<nat>) returns (outcome: Outcome)
      modifies this, metrics
      ensures (Snapshot(), outcome) == Connect(id, old(Snapshot()), dials, 0, limit)
    {
      hide Once, Caught, Bump;
      var attempts := 0;
      while attempts < |dials|
        invariant attempts <= |dials|
        invariant Connect(id, Snapshot(), dials[attempts..], attempts, limit)
               == Connect(id, old(Snapshot()), dials, 0, limit)
      {
        mode := CONNECTING;
        var result := EstablishOnce(dials[attempts]);
        attempts := attempts + 1;
        if result.Ok? {
          mode := ESTABLISHED;
          return Established;
        }
        if !Caught(result.error) {
          return Escaped(result.error);
        }
        metrics.Inc(Errors);
        mode := FAILED;
        mode := DISCONNECTED;
        if limit.Some? && attempts >= limit.value {
          return GaveUp;
        }
      }
      return Trying;
    }

    method EstablishOnce(dial: Dial) returns (result: Result<()>)
      modifies this, metrics
      ensures (Snapshot(), result) == Once(id, old(Snapshot()), dial)
    {
      hide PinnedReply, Confirmation, EncodeMessage, GatewayClaims, RequestMessage, EncapsMessage, Bump;
      if !dial.reachable {
        return Err(OsError);
      }
      var socket := dialled;
      var stream := new Protocol.Stream(dial.incoming);
      dialled := dialled + 1;
      mode := ESTABLISHING;
      sealed := sealed[Slot(id.key, dial.authNonce, GatewayClaims(id.gatewayId), dial.authTag) := []];
      if dial.requestSent {
        wire := wire + [Frame(socket, EncodeMessage(RequestMessage(id.gatewayId, dial.authNonce, dial.authTag)))];
      }
      result := ReceivePinnedKey(stream, dial);
      if result.Err? {
        return;
      }
      if dial.encapsSent {
        wire := wire + [Frame(socket, EncodeMessage(EncapsMessage(id.gatewayId, dial.sessionId, dial.ciphertext)))];
      }
      result := ReceiveConfirmation(stream, dial);
      if result.Err? {
        return;
      }
      sessionKey := Some(DeriveSessionKey(dial.secret));
      sessionId := Some(dial.sessionId);
      metrics.Inc(MlkemSessionsEstablished);
      sock := Some(socket);
    }

    method ReadReply(stream: Protocol.Stream, dial: Dial) returns (reply: Result<Message>)
      modifies stream
      ensures (reply, stream.unread) == NextReply(dial, old(stream.unread))
    {
      hide ReadMessage;
      if Unfinished(stream.unread) && !dial.closes {
        return Err(OsError);
      }
      reply := stream.Read();
    }

    /** From the request's send to the loaded key, before anything is encapsulated to it. */
    method ReceivePinnedKey(stream: Protocol.Stream, dial: Dial) returns (result: Result<()>)
      requires stream.unread == dial.incoming
      modifies stream
      ensures result.Ok? <==> PinnedReply(id.pin, dial).Ok?
      ensures result.Ok? ==> stream.unread == PinnedReply(id.pin, dial).value
      ensures result.Err? ==> result.error == PinnedReply(id.pin, dial).error
    {
      hide NextReply, ParseMlkemPubkeyReply, VerifyCloudPublicKey;
      if !dial.requestSent {
        return Err(OsError);
      }
      var reply := ReadReply(stream, dial);
      if reply.Err? {
        return Err(reply.error);
      }
      var raw := ParseMlkemPubkeyReply(reply.value);
      if raw.Err? {
        return Err(raw.error);
      }
      result := VerifyCloudPublicKey(raw.value, id.pin);
      if result.Ok? && !dial.loads {
        return Err(ProtocolError);
      }
    }

    /** From the ciphertext's send to the checked session id. */
    method ReceiveConfirmation(stream: Protocol.Stream, dial: Dial) returns (result: Result<()>)
      modifies stream
      ensures result == Confirmation(dial, old(stream.unread))
    {
      hide NextReply, ParseMlkemEstablishedReply;
      if !dial.encapsSent {
        return Err(OsError);
      }
      var reply := ReadReply(stream, dial);
      if reply.Err? {
        return Err(reply.error);
      }
      result := ParseMlkemEstablishedReply(reply.value, dial.sessionId);
    }

    method SendReading(reading: bytes, nonce: bytes, ciphertext: bytes, ok: bool) returns (outcome: Gateway.SendOutcome)
      requires Coherent(Snapshot())
      modifies this
      ensures (Snapshot(), outcome) == Send(id, old(Snapshot()), reading, nonce, ciphertext, ok)
    {
      var established := IsEstablished();
      if !established {
        return Gateway.Refused;
      }
      sealed := sealed[ProtectedSlot(sessionKey.value, sessionId.value, nonce, ciphertext) := reading];
      var payload := EncodeMessage(BuildProtectedReading(sessionId.value, nonce, ciphertext));
      if !ok {
        Invalidate();
        return Gateway.Refused;
      }
      wire := wire + [Frame(sock.value, payload)];
      return Gateway.Sent;
    }

    method Invalidate()
      modifies this
      ensures Snapshot() == Invalidated(id, old(Snapshot()))
    {
      sock := None;
      sessionKey := None;
      mode := FAILED;
      if id.auto {
        StartReconnect();
      }
    }

    /** Starting the thread is counted; ReconnectLoop is what the thread runs. */
    method StartReconnect()
      modifies this
      ensures Snapshot() == old(Snapshot()).(reconnecting := true,
                                             spawned := if old(reconnecting) then old(spawned) else old(spawned) + 1)
    {
      if reconnecting {
        return;
      }
      reconnecting := true;
      spawned := spawned + 1;
    }

    method ReconnectLoop(dials: seq<Dial>) returns (outcome: Outcome)
      modifies this, metrics
      ensures (Snapshot(), outcome) == Reconnect(id, old(Snapshot()), dials)
    {
      hide Connect;
      outcome := ConnectAndEstablish(dials, None);
      if !outcome.Trying? {
        reconnecting := false;
      }
    }
  }

  // ----- what an attempt does -----

  /** An attempt ends as the world and the pin decide. It changes the session only when it
      succeeds, and then all of it, to its own new id, key and socket, and counts it. */
  lemma OnceMeaning(id: Identity, v: View, dial: Dial)
    ensures var (v', r) := Once(id, v, dial);
            && r == DialResult(id.pin, dial)
            && v'.reconnecting == v.reconnecting && v'.spawned == v.spawned
            && v'.dialled == v.dialled + (if dial.reachable then 1 else 0)
            && (r.Ok? ==> v'.sock == Some(v.dialled) && v'.sessionId == Some(dial.sessionId)
                          && v'.sessionKey == Some(DeriveSessionKey(dial.secret)))
            && (r.Err? ==> v'.sock == v.sock && v'.sessionId == v.sessionId && v'.sessionKey == v.sessionKey)
            && v'.mode == (if dial.reachable then ESTABLISHING else v.mode)
            && (!dial.reachable ==> r == Err(OsError)) && (r.Err? && !Caught(r.error) ==> dial.reachable)
            && forall c :: v'.Tally(c) == v.Tally(c) + One(c == MlkemSessionsEstablished && r.Ok?)
  {
    hide PinnedReply, Confirmation, EncodeMessage, GatewayClaims, RequestMessage, EncapsMessage, Bump, Count;
  }

  /** Nothing is encapsulated to a key that fails the pin check: at most two frames leave an
      attempt, and the second only after a first reply that carried the pinned key. */
  lemma PinBeforeEncapsulation(id: Identity, v: View, dial: Dial)
    ensures var wire := Once(id, v, dial).0.wire;
            && v.wire <= wire && |wire| <= |v.wire| + 2
            && (|wire| == |v.wire| + 2 ==>
                  && ReadMessage(dial.incoming).0.Ok?
                  && var raw := ParseMlkemPubkeyReply(ReadMessage(dial.incoming).0.value);
                     raw.Ok? && id.pin == Some(Sha256(raw.value)))
  {
    hide Confirmation, EncodeMessage, GatewayClaims, RequestMessage, EncapsMessage, ReadMessage,
        ParseMlkemPubkeyReply, Bump;
  }

  /** The first dial that ends the retry loop, or the number of dials. */
  function Decisive(pin: Option<Digest>, dials: seq<Dial>): (k: nat)
    ensures k <= |dials|
    ensures forall i | 0 <= i < k :: DialResult(pin, dials[i]).Err? && Caught(DialResult(pin, dials[i]).error)
    ensures k < |dials| ==> DialResult(pin, dials[k]).Ok? || !Caught(DialResult(pin, dials[k]).error)
  {
    if dials == [] then 0
    else
      var r := DialResult(pin, dials[0]);
      if r.Ok? || !Caught(r.error) then 0 else 1 + Decisive(pin, dials[1..])
  }

  /** How many attempts the limit allows from here: one is always made. */
  function Allowed(attempts: nat, limit: Option<nat>, n: nat): nat {
    match limit
    case None => n
    case Some(most) =>
      if most <= attempts + 1 then (if n < 1 then n else 1)
      else if most - attempts < n then most - attempts
      else n
  }

  /** `connect_and_establish` makes attempts up to the first that succeeds or escapes, within the
      limit; every failed one before is one error. It returns True with the session of the first
      that succeeds; when the limit is used up it returns False with the session untouched; and a
      clean close by the peer escapes it. */
  lemma {:induction false} ConnectMeaning(id: Identity, v: View, dials: seq<Dial>, attempts: nat, limit: Option<nat>)
    ensures var (v', outcome) := Connect(id, v, dials, attempts, limit);
            var k, most := Decisive(id.pin, dials), Allowed(attempts, limit, |dials|);
            && v'.reconnecting == v.reconnecting && v'.spawned == v.spawned
            && v'.Tally(MlkemSessionsEstablished) == v.Tally(MlkemSessionsEstablished) + One(outcome.Established?)
            && (outcome.GaveUp? ==> v'.mode == DISCONNECTED) && (outcome.Escaped? ==> v'.mode == ESTABLISHING)
            && (k < most ==>
                  && v'.Tally(Errors) == v.Tally(Errors) + k
                  && (DialResult(id.pin, dials[k]).Ok? ==>
                        && outcome == Established && v'.Usable()
                        && v'.sessionId == Some(dials[k].sessionId)
                        && v'.sessionKey == Some(DeriveSessionKey(dials[k].secret)))
                  && (DialResult(id.pin, dials[k]).Err? ==> outcome == Escaped(DialResult(id.pin, dials[k]).error)))
            && (k >= most ==>
                  && v'.Tally(Errors) == v.Tally(Errors) + most
                  && outcome == (if limit.Some? && most > 0 && attempts + most >= limit.value then GaveUp else Trying)
                  && (outcome == Trying ==> most == |dials|))
            && (!outcome.Established? ==>
                  v'.sock == v.sock && v'.sessionId == v.sessionId && v'.sessionKey == v.sessionKey)
    decreases |dials|
  {
    hide Once, DialResult, Bump, Count, Caught, Decisive, Allowed;
    DecisiveStep(id.pin, dials);
    AllowedStep(attempts, limit, |dials|);
    if dials != [] {
      var start := v.(mode := CONNECTING);
      OnceMeaning(id, start, dials[0]);
      var (v', r) := Once(id, start, dials[0]);
      if r.Err? && Caught(r.error) {
        var failed := v'.(mode := DISCONNECTED, counters := Bump(v'.counters, Errors));
        FailedTallies(v', failed);
        if limit.None? || attempts + 1 < limit.value {
          ConnectMeaning(id, failed, dials[1..], attempts + 1, limit);
          AllowedStep(attempts + 1, limit, |dials| - 1);
          var k := Decisive(id.pin, dials[1..]);
          assert Decisive(id.pin, dials) == k + 1 && (k < |dials| - 1 ==> dials[1..][k] == dials[k + 1]);
        }
      }
    }
  }

  lemma DecisiveStep(pin: Option<Digest>, dials: seq<Dial>)
    ensures Decisive(pin, dials)
         == if dials == [] then 0
            else if DialResult(pin, dials[0]).Ok? || !Caught(DialResult(pin, dials[0]).error) then 0
            else 1 + Decisive(pin, dials[1..])
  {
    hide DialResult, Caught;
  }

  lemma AllowedStep(attempts: nat, limit: Option<nat>, n: nat)
    ensures Allowed(attempts, limit, n) <= n
    ensures n > 0 && (limit.None? || attempts + 1 < limit.value) ==>
              Allowed(attempts, limit, n) == 1 + Allowed(attempts + 1, limit, n - 1)
    ensures n > 0 && limit.Some? && attempts + 1 >= limit.value ==> Allowed(attempts, limit, n) == 1
  {
  }

  lemma FailedTallies(v: View, failed: View)
    requires failed.counters == Bump(v.counters, Errors)
    ensures failed.Tally(Errors) == v.Tally(Errors) + 1
    ensures failed.Tally(MlkemSessionsEstablished) == v.Tally(MlkemSessionsEstablished)
  {
    hide Bump;
  }

  /** An attempt escapes the retry loop exactly when the peer closes cleanly where a reply is
      awaited: before its first message, or after a pinned one. A peer that stays silent instead, or
      closes in the middle of a reply, is retried. */
  lemma EscapesIff(pin: Option<Digest>, dial: Dial)
    ensures DialResult(pin, dial).Err? && !Caught(DialResult(pin, dial).error)
       <==> && dial.reachable && dial.requestSent && dial.closes
            && (|| dial.incoming == []
                || (PinnedReply(pin, dial).Ok? && dial.encapsSent && PinnedReply(pin, dial).value == []))
    ensures DialResult(pin, dial).Err? && !Caught(DialResult(pin, dial).error) ==>
              DialResult(pin, dial).error == ConnectionClosed
  {
    hide ParseMlkemPubkeyReply, ParseMlkemEstablishedReply, NextReply;
    var (reply, rest) := NextReply(dial, dial.incoming);
    ReadErrors(dial, dial.incoming);
    ReadErrors(dial, rest);
    if reply.Ok? {
      ReplyErrors(reply.value, dial.sessionId);
    }
    if NextReply(dial, rest).0.Ok? {
      ReplyErrors(NextReply(dial, rest).0.value, dial.sessionId);
    }
  }

  lemma ReadErrors(dial: Dial, data: bytes)
    ensures NextReply(dial, data).0 == Err(ConnectionClosed) <==> data == [] && dial.closes
    ensures NextReply(dial, data).0.Err? ==>
              var e := NextReply(dial, data).0.error; e.ConnectionClosed? || e.ProtocolError? || e.OsError?
  {
  }

  lemma ReplyErrors(m: Message, sessionId: string)
    ensures ParseMlkemEstablishedReply(m, sessionId).Err? ==>
              ParseMlkemEstablishedReply(m, sessionId).error == ProtocolError
  {
    EstablishedReplyIff(m, sessionId);
  }

  /** The next message arrives whole, or the peer closes. */
  predicate Arrives(dial: Dial, unread: bytes) {
    (Unfinished(unread) ==> dial.closes) && ReadMessage(unread).0.Ok?
  }

  /** The first reply carries the pinned key, and the library loads it. */
  predicate PinnedKeyArrives(pin: Option<Digest>, dial: Dial) {
    && Arrives(dial, dial.incoming)
    && var raw := ParseMlkemPubkeyReply(ReadMessage(dial.incoming).0.value);
       raw.Ok? && pin == Some(Sha256(raw.value)) && dial.loads
  }

  /** Exactly when an attempt establishes a session. */
  lemma SucceedsIff(pin: Option<Digest>, dial: Dial)
    ensures DialResult(pin, dial).Ok?
       <==> && dial.reachable && dial.requestSent && PinnedKeyArrives(pin, dial) && dial.encapsSent
            && var rest := ReadMessage(dial.incoming).1;
               && Arrives(dial, rest)
               && var reply := ReadMessage(rest).0.value;
                  && Get(reply, "type") == Some(Str(MSG_MLKEM_ESTABLISHED))
                  && Get(reply, "session_id") == Some(Str(dial.sessionId)) && dial.sessionId != ""
  {
    hide ReadMessage, ParseMlkemPubkeyReply, ParseMlkemEstablishedReply, VerifyCloudPublicKey, Unfinished, Get;
    var rest := ReadMessage(dial.incoming).1;
    if ReadMessage(rest).0.Ok? {
      EstablishedReplyIff(ReadMessage(rest).0.value, dial.sessionId);
    }
  }

  // ----- what an attempt puts on the wire -----

  /** The cloud reads a gateway's own request as that gateway's. */
  lemma RequestIsRead(t: Table, keys: map<string, Key>, gatewayId: string, nonce: bytes, tag: bytes)
    requires gatewayId != "" && gatewayId in keys && |nonce| == NONCE_LENGTH && tag != []
    requires Slot(keys[gatewayId], nonce, GatewayClaims(gatewayId), tag) in t
    ensures Cloud.OnRequest(t, keys, RequestMessage(gatewayId, nonce, tag)) == Ok(gatewayId)
  {
    hide GatewayClaims, Base64.Encode, Base64.Decode;
    var m := RequestMessage(gatewayId, nonce, tag);
    GetAt(m, 0);
    GetAt(m, 1);
    GetAt(m, 2);
    GetAt(m, 3);
    Base64.RoundTrip(nonce);
    Base64.RoundTrip(tag);
    Base64.NotEmpty(nonce);
    Base64.NotEmpty(tag);
    hide Get;
  }

  /** And its ciphertext as that attempt's. */
  lemma EncapsIsRead(gatewayId: string, sessionId: string, ciphertext: bytes)
    requires sessionId != "" && |ciphertext| == MLKEM768_CIPHERTEXT_BYTES
    ensures ParseMlkemEncaps(EncapsMessage(gatewayId, sessionId, ciphertext)) == Ok(Encaps(sessionId, ciphertext))
  {
    hide Base64.Encode, Base64.Decode;
    var m := EncapsMessage(gatewayId, sessionId, ciphertext);
    GetAt(m, 0);
    GetAt(m, 2);
    GetAt(m, 3);
    Base64.RoundTrip(ciphertext);
    Base64.NotEmpty(ciphertext);
    hide Get;
  }

  lemma AttemptIsWellFormed(gatewayId: string, nonce: bytes, tag: bytes, sessionId: string, ciphertext: bytes)
    ensures WellFormedMessage(RequestMessage(gatewayId, nonce, tag))
    ensures WellFormedMessage(EncapsMessage(gatewayId, sessionId, ciphertext))
  {
    hide Base64.Encode;
  }

  /** The request leaves exactly on a connection that takes it; the ciphertext exactly after the
      pinned key arrived. A cloud that knows the gateway reads the first as that gateway's request,
      with the tag the attempt made, and the second as exactly the attempt's session id and
      ciphertext; both go to the attempt's own socket. */
  lemma AttemptOnWire(id: Identity, v: View, dial: Dial, keys: map<string, Key>)
    requires id.gatewayId in keys && keys[id.gatewayId] == id.key
    requires id.gatewayId != "" && dial.sessionId != "" && |dial.authNonce| == NONCE_LENGTH && dial.authTag != []
    requires |dial.ciphertext| == MLKEM768_CIPHERTEXT_BYTES
    ensures var v' := Once(id, v, dial).0;
            var requested := dial.reachable && dial.requestSent;
            var encapsulated := requested && PinnedKeyArrives(id.pin, dial) && dial.encapsSent;
            && v.wire <= v'.wire && |v'.wire| == |v.wire| + One(requested) + One(encapsulated)
            && (requested ==>
                  var frame := v'.wire[|v.wire|];
                  && frame.sock == v.dialled
                  && (|frame.data| <= MAX_MESSAGE_BYTES ==>
                        && ReadMessage(frame.data).0.Ok? && ReadMessage(frame.data).1 == []
                        && Cloud.OnRequest(v'.sealed, keys, ReadMessage(frame.data).0.value) == Ok(id.gatewayId)))
            && (encapsulated ==>
                  var frame := v'.wire[|v.wire| + 1];
                  && frame.sock == v.dialled
                  && (|frame.data| <= MAX_MESSAGE_BYTES ==>
                        && ReadMessage(frame.data).0.Ok? && ReadMessage(frame.data).1 == []
                        && ParseMlkemEncaps(ReadMessage(frame.data).0.value)
                        == Ok(Encaps(dial.sessionId, dial.ciphertext))))
  {
    hide ReadMessage, EncodeMessage, RequestMessage, EncapsMessage, ParseMlkemEncaps, Cloud.OnRequest, GatewayClaims,
         WellFormedMessage, Once, PinnedKeyArrives;
    var v' := Once(id, v, dial).0;
    var request := RequestMessage(id.gatewayId, dial.authNonce, dial.authTag);
    var encaps := EncapsMessage(id.gatewayId, dial.sessionId, dial.ciphertext);
    FramesOf(id, v, dial);
    AttemptIsWellFormed(id.gatewayId, dial.authNonce, dial.authTag, dial.sessionId, dial.ciphertext);
    ReadFrame(request, []);
    ReadFrame(encaps, []);
    assert EncodeMessage(request) + [] == EncodeMessage(request);
    assert EncodeMessage(encaps) + [] == EncodeMessage(encaps);
    EncapsIsRead(id.gatewayId, dial.sessionId, dial.ciphertext);
    if dial.reachable {
      RequestIsRead(v'.sealed, keys, id.gatewayId, dial.authNonce, dial.authTag);
    }
  }

  lemma FramesOf(id: Identity, v: View, dial: Dial)
    ensures var v' := Once(id, v, dial).0;
            var request := Frame(v.dialled, EncodeMessage(RequestMessage(id.gatewayId, dial.authNonce, dial.authTag)));
            var encaps :=
              Frame(v.dialled, EncodeMessage(EncapsMessage(id.gatewayId, dial.sessionId, dial.ciphertext)));
            var requested := dial.reachable && dial.requestSent;
            && v'.wire == v.wire + (if requested then [request] else [])
                        + (if requested && PinnedKeyArrives(id.pin, dial) && dial.encapsSent then [encaps] else [])
            && (dial.reachable ==>
                  Slot(id.key, dial.authNonce, GatewayClaims(id.gatewayId), dial.authTag) in v'.sealed)
  {
    hide ReadMessage, EncodeMessage, RequestMessage, EncapsMessage, ParseMlkemPubkeyReply, VerifyCloudPublicKey,
         Unfinished, GatewayClaims, Bump, Confirmation;
  }

  // ----- what a send does -----

  /** A send goes out exactly when the session is usable and the socket takes it; it changes
      nothing but the wire. */
  lemma SendMeaning(id: Identity, v: View, reading: bytes, nonce: bytes, ciphertext: bytes, ok: bool)
    requires Coherent(v)
    ensures var (v', outcome) := Send(id, v, reading, nonce, ciphertext, ok);
            && Coherent(v')
            && (outcome == Gateway.Sent <==> v.Usable() && ok)
            && (outcome == Gateway.Sent || !v.Usable() ==>
                  v'.mode == v.mode && v'.sock == v.sock && v'.sessionId == v.sessionId && v'.sessionKey == v.sessionKey
                  && v'.reconnecting == v.reconnecting)
            && (v.Usable() && !ok ==>
                  && v'.wire == v.wire && v'.mode == FAILED && v'.sock.None? && v'.sessionKey.None?
                  && v'.reconnecting == (v.reconnecting || id.auto)
                  && v'.spawned == v.spawned + (if id.auto && !v.reconnecting then 1 else 0))
  {
    hide ProtectedSlot, EncodeMessage, BuildProtectedReading;
  }

  /** What was sent opens at the peer, on the session it was sent on, to the reading it was made
      from. */
  lemma SentOpensAtPeer(id: Identity, v: View, reading: bytes, nonce: bytes, ciphertext: bytes)
    requires Coherent(v) && v.Usable() && v.sessionId.value != "" && |nonce| == NONCE_LENGTH
    requires ParseReading(reading).Ok?
    ensures var v' := Send(id, v, reading, nonce, ciphertext, true).0;
            var m := BuildProtectedReading(v.sessionId.value, nonce, ciphertext);
            && v'.wire == v.wire + [Frame(v.sock.value, EncodeMessage(m))]
            && DecryptProtectedReading(v'.sealed, m, v.sessionKey.value, v.sessionId.value) == ParseReading(reading)
            && (|EncodeMessage(m)| <= MAX_MESSAGE_BYTES ==> ReadMessage(EncodeMessage(m)) == (Ok(m), []))
  {
    hide EncodeMessage, ReadMessage, DecryptProtectedReading, ParseReading, BuildProtectedReading;
    var key, sessionId := v.sessionKey.value, v.sessionId.value;
    var m := BuildProtectedReading(sessionId, nonce, ciphertext);
    var v' := Send(id, v, reading, nonce, ciphertext, true).0;
    assert v'.sealed[ProtectedSlot(key, sessionId, nonce, ciphertext)] == reading;
    ProtectedRoundTrip(v'.sealed, key, sessionId, nonce, ciphertext);
    assert WellFormedMessage(m) by { ProtectedIsWellFormed(sessionId, nonce, ciphertext); }
    ReadFrame(m, []);
    assert EncodeMessage(m) + [] == EncodeMessage(m);
  }

  /** A failed send and the reconnect it starts, with no other thread in between: the channel is
      usable again, with a new session, exactly when the first dial that ends the retry loop
      succeeds; a clean close there leaves it in ESTABLISHING with no loop. */
  lemma FailThenReconnect(id: Identity, v: View, reading: bytes, nonce: bytes, ciphertext: bytes, dials: seq<Dial>)
    requires Coherent(v) && v.Usable() && id.auto && !v.reconnecting
    requires Decisive(id.pin, dials) < |dials|
    ensures var k := Decisive(id.pin, dials);
            var (v', outcome) := Reconnect(id, Send(id, v, reading, nonce, ciphertext, false).0, dials);
            && !v'.reconnecting && v'.spawned == v.spawned + 1
            && v'.Tally(Errors) == v.Tally(Errors) + k
            && (v'.Usable() <==> DialResult(id.pin, dials[k]).Ok?)
            && (v'.Usable() ==> outcome == Established && v'.sessionId == Some(dials[k].sessionId)
                                && v'.sessionKey == Some(DeriveSessionKey(dials[k].secret)))
            && (!v'.Usable() ==> outcome == Escaped(ConnectionClosed) && v'.sock.None? && v'.sessionKey.None?)
  {
    hide Connect, Decisive, DialResult, Bump, Count, Send;
    SendMeaning(id, v, reading, nonce, ciphertext, false);
    SendCountsNothing(id, v, reading, nonce, ciphertext, false);
    var v1 := Send(id, v, reading, nonce, ciphertext, false).0;
    ConnectMeaning(id, v1, dials, 0, None);
    var k := Decisive(id.pin, dials);
    if DialResult(id.pin, dials[k]).Err? {
      EscapesIff(id.pin, dials[k]);
    }
  }

  lemma SendCountsNothing(id: Identity, v: View, reading: bytes, nonce: bytes, ciphertext: bytes, ok: bool)
    requires Coherent(v)
    ensures Send(id, v, reading, nonce, ciphertext, ok).0.counters == v.counters
  {
    hide ProtectedSlot, EncodeMessage, BuildProtectedReading;
  }
}
