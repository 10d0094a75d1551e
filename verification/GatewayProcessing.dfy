/** The gateway's pure message processing (gateway/processing.py and the hello and gateway tags
    of common/crypto.py). */
module GatewayProcessing {
  import opened Wrappers
  import opened Text
  import opened Json
  import opened Protocol
  import opened Crypto
  import Base64

  /** A structurally valid hello. */
  datatype Hello = Hello(deviceId: string, capabilities: seq<string>, authNonce: string, authTag: string)

  predicate AllStrings(items: seq<Json>) {
    forall i | 0 <= i < |items| :: items[i].Str?
  }

  function StringsOf(items: seq<Json>): (ss: seq<string>)
    requires AllStrings(items)
    ensures Strings(ss) == items
  {
    seq(|items|, i requires 0 <= i < |items| => items[i].s)
  }

  function ParseHello(m: Message): Result<Hello> {
    if !HasType(m, MSG_HELLO) then Err(ProtocolError)
    else
      var deviceId :- RequireStr(m, "device_id");
      match Get(m, "capabilities")
      case Some(Arr(items)) =>
        if !AllStrings(items) then Err(ProtocolError)
        else
          var authNonce :- RequireStr(m, "auth_nonce");
          var authTag :- RequireStr(m, "auth_tag");
          Ok(Hello(deviceId, StringsOf(items), authNonce, authTag))
      case _ => Err(ProtocolError)
  }

  predicate HasStrings(m: Message, field: string) {
    Get(m, field).Some? && Get(m, field).value.Arr? && AllStrings(Get(m, field).value.items)
  }

  /** Exactly which messages are hellos, and what they claim. */
  lemma HelloIff(m: Message)
    ensures var r := ParseHello(m);
            && (r.Ok? <==> && HasType(m, MSG_HELLO) && HasText(m, "device_id") && HasStrings(m, "capabilities")
                           && HasText(m, "auth_nonce") && HasText(m, "auth_tag"))
            && (r.Ok? ==> && r.value.deviceId == TextOf(m, "device_id")
                          && Strings(r.value.capabilities) == Get(m, "capabilities").value.items
                          && r.value.authNonce == TextOf(m, "auth_nonce") && r.value.authTag == TextOf(m, "auth_tag"))
            && (r.Err? ==> r.error == ProtocolError)
  {
    hide Get;
  }

  datatype Path = Legacy | Modern | Both | Unknown

  function DeterminePath(capabilities: seq<string>): Path {
    var modern := CAP_MLKEM_768 in capabilities;
    var legacy := CAP_CHACHA20_POLY1305 in capabilities;
    if modern && legacy then Both
    else if modern then Modern
    else if legacy then Legacy
    else Unknown
  }

  datatype Decision =
    | AllowFallback
    | RejectUnknownDevice
    | RejectUnauthenticated
    | RejectModern
    | RejectAmbiguous
    | RejectNoCapabilities

  function VerifyHelloAuth(t: Table, key: Key, hello: Hello): bool {
    TagVerifies(t, key, hello.authNonce, hello.authTag, HelloClaims(hello.deviceId, hello.capabilities))
  }

  function EvaluateHello(t: Table, hello: Hello, deviceKey: Option<Key>): Decision {
    match deviceKey
    case None => RejectUnknownDevice
    case Some(key) =>
      if !VerifyHelloAuth(t, key, hello) then RejectUnauthenticated
      else
        match DeterminePath(hello.capabilities)
        case Legacy => AllowFallback
        case Modern => RejectModern
        case Both => RejectAmbiguous
        case Unknown => RejectNoCapabilities
  }

  /** Fallback is allowed exactly for a registered device whose key tagged these claims, with
      the legacy capability present and the modern one absent. */
  lemma FallbackIff(t: Table, hello: Hello, deviceKey: Option<Key>)
    ensures EvaluateHello(t, hello, deviceKey) == AllowFallback
       <==> && deviceKey.Some?
            && VerifyHelloAuth(t, deviceKey.value, hello)
            && CAP_CHACHA20_POLY1305 in hello.capabilities
            && CAP_MLKEM_768 !in hello.capabilities
  {
    if deviceKey.Some? {
      match DeterminePath(hello.capabilities)
      case _ =>
    }
  }

  /** The slot a hello's tag names. */
  function HelloSlot(key: Key, hello: Hello): Slot {
    TagSlot(key, hello.authNonce, hello.authTag, HelloClaims(hello.deviceId, hello.capabilities))
  }

  // ----- handshake replies -----

  function ParseMlkemPubkeyReply(reply: Message): (r: Result<bytes>)
    ensures r.Ok? ==> |r.value| == MLKEM768_PUBLIC_KEY_BYTES
    ensures r.Err? ==> r.error == ProtocolError
  {
    if !HasType(reply, MSG_MLKEM_PUBKEY) then Err(ProtocolError)
    else
      var _ :- RequireStr(reply, "cloud_id");
      var text :- RequireStr(reply, "public_key");
      var raw :- B64d(Str(text));
      if |raw| != MLKEM768_PUBLIC_KEY_BYTES then Err(ProtocolError) else Ok(raw)
  }

  function ParseMlkemEstablishedReply(reply: Message, expectedSessionId: string): Result<()> {
    if !HasType(reply, MSG_MLKEM_ESTABLISHED) then Err(ProtocolError)
    else
      var sessionId :- RequireStr(reply, "session_id");
      if sessionId != expectedSessionId then Err(ProtocolError) else Ok(())
  }

  /** Exactly which replies carry a key, and which key. */
  lemma PubkeyReplyIff(reply: Message)
    ensures var r := ParseMlkemPubkeyReply(reply);
            && (r.Ok? <==> && HasType(reply, MSG_MLKEM_PUBKEY) && HasText(reply, "cloud_id")
                           && HasText(reply, "public_key") && FieldOf(reply, "public_key").Bytes?
                           && |FieldOf(reply, "public_key").data| == MLKEM768_PUBLIC_KEY_BYTES)
            && (r.Ok? ==> r.value == FieldOf(reply, "public_key").data)
  {
    hide Get, Base64.Decode;
  }

  /** A reply confirms a session exactly when it is of the kind and names that very id. */
  lemma EstablishedReplyIff(reply: Message, expectedSessionId: string)
    ensures var r := ParseMlkemEstablishedReply(reply, expectedSessionId);
            && (r.Ok? <==> && Get(reply, "type") == Some(Str(MSG_MLKEM_ESTABLISHED))
                           && Get(reply, "session_id") == Some(Str(expectedSessionId)) && expectedSessionId != "")
            && (r.Err? ==> r.error == ProtocolError)
  {
    hide Get;
  }

  /** Fingerprint pinning; no configured pin means no session. */
  function VerifyCloudPublicKey(raw: bytes, pin: Option<Digest>): (r: Result<()>)
    ensures r.Ok? <==> pin == Some(Sha256(raw))
  {
    match pin
    case None => Err(CryptoError)
    case Some(expected) => if Sha256(raw) != expected then Err(CryptoError) else Ok(())
  }

  // ----- readings -----

  /** What `device.run` sends for one reading. */
  function LegacyReading(deviceId: string, sequence: int, nonce: bytes, ciphertext: bytes): Message {
    [Member("type", Str(MSG_LEGACY_READING)), Member("device_id", Str(deviceId)), Member("seq", Int(sequence))]
    + Envelope(nonce, ciphertext)
  }

  lemma LegacyIsWellFormed(deviceId: string, sequence: int, nonce: bytes, ciphertext: bytes)
    ensures WellFormedMessage(LegacyReading(deviceId, sequence, nonce, ciphertext))
  {
  }

  function DecryptLegacyMessage(t: Table, m: Message, key: Key, expectedDeviceId: string): Result<(bytes, int)> {
    if !HasType(m, MSG_LEGACY_READING) then Err(ProcessingError)
    else if Get(m, "device_id") != Some(Str(expectedDeviceId)) then Err(ProcessingError)
    else
      var sequence :- RequireInt(m, "seq");
      var plaintext :- AeadDecrypt(t, key, m, LegacyAad(expectedDeviceId, sequence), LegacyDecryptionError);
      if ParseReading(plaintext).Err? then Err(ProcessingError)
      else Ok((plaintext, sequence))
  }

  /** The slot a legacy reading names. */
  function LegacySlot(key: Key, m: Message, deviceId: string, sequence: int): Slot {
    EnvelopeSlot(key, m, LegacyAad(deviceId, sequence))
  }

  /** What the gateway accepts was encrypted under that key for that device and sequence. */
  lemma AcceptedReading(t: Table, m: Message, key: Key, deviceId: string)
    requires DecryptLegacyMessage(t, m, key, deviceId).Ok?
    ensures var (plaintext, sequence) := DecryptLegacyMessage(t, m, key, deviceId).value;
            && ParseReading(plaintext).Ok?
            && LegacySlot(key, m, deviceId, sequence) in t
            && t[LegacySlot(key, m, deviceId, sequence)] == plaintext
  {
    hide AeadDecrypt, ParseReading;
    var sequence := RequireInt(m, "seq").value;
    AeadDecryptOpens(t, key, m, LegacyAad(deviceId, sequence), LegacyDecryptionError);
  }

  /** A device's own message is accepted with the plaintext and sequence it was built from. */
  lemma LegacyRoundTrip(t: Table, slot: Slot, deviceId: string, sequence: int)
    requires slot in t && |slot.nonce| == NONCE_LENGTH && slot.aad == LegacyAad(deviceId, sequence)
    requires ParseReading(t[slot]).Ok?
    ensures DecryptLegacyMessage(t, LegacyReading(deviceId, sequence, slot.nonce, slot.ciphertext), slot.key, deviceId)
         == Ok((t[slot], sequence))
  {
    hide AeadDecrypt, ParseReading, LegacyAad;
    var m := LegacyReading(deviceId, sequence, slot.nonce, slot.ciphertext);
    GetAt(m, 0);
    GetAt(m, 1);
    GetAt(m, 2);
    GetAt(m, 3);
    GetAt(m, 4);
    AeadRoundTrip(t, slot, m, LegacyDecryptionError);
  }

  function BuildProtectedReading(sessionId: string, nonce: bytes, ciphertext: bytes): Message {
    [Member("type", Str(MSG_PROTECTED_READING)), Member("session_id", Str(sessionId))]
    + Envelope(nonce, ciphertext)
  }

  /** The slot that `build_protected_reading` fills. */
  function ProtectedSlot(key: Key, sessionId: string, nonce: bytes, ciphertext: bytes): Slot {
    Slot(key, nonce, SessionAad(sessionId), ciphertext)
  }

  lemma ProtectedIsWellFormed(sessionId: string, nonce: bytes, ciphertext: bytes)
    ensures WellFormedMessage(BuildProtectedReading(sessionId, nonce, ciphertext))
  {
  }
}
