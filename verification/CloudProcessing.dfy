/** The cloud's pure message processing (cloud/processing.py). */
module CloudProcessing {
  import opened Wrappers
  import opened Text
  import opened Json
  import opened Protocol
  import opened Crypto
  import opened GatewayProcessing
  import Base64

  datatype Request = Request(gatewayId: string, authNonce: string, authTag: string)

  function ParseMlkemRequest(m: Message): Result<Request> {
    if !HasType(m, MSG_MLKEM_REQUEST_PUBKEY) then Err(ProtocolError)
    else
      var gatewayId :- RequireStr(m, "gateway_id");
      var authNonce :- RequireStr(m, "auth_nonce");
      var authTag :- RequireStr(m, "auth_tag");
      Ok(Request(gatewayId, authNonce, authTag))
  }

  /** Unknown gateways and failed tags raise AuthenticationError. */
  function AuthenticateGateway(t: Table, keys: map<string, Key>, request: Request): Result<()> {
    if request.gatewayId !in keys then Err(AuthenticationError)
    else if !TagVerifies(t, keys[request.gatewayId], request.authNonce, request.authTag,
                         GatewayClaims(request.gatewayId)) then Err(AuthenticationError)
    else Ok(())
  }

  /** The slot a request's tag names. */
  function RequestSlot(keys: map<string, Key>, m: Message): Slot {
    match ParseMlkemRequest(m)
    case Ok(r) =>
      TagSlot(if r.gatewayId in keys then keys[r.gatewayId] else Provisioned(0), r.authNonce, r.authTag,
          GatewayClaims(r.gatewayId))
    case Err(_) => Slot(Provisioned(0), [], [], [])
  }

  /** Exactly which messages are requests, and what they claim. */
  lemma RequestIff(m: Message)
    ensures var r := ParseMlkemRequest(m);
            && (r.Ok? <==> && HasType(m, MSG_MLKEM_REQUEST_PUBKEY) && HasText(m, "gateway_id")
                           && HasText(m, "auth_nonce") && HasText(m, "auth_tag"))
            && (r.Ok? ==> r.value == Request(TextOf(m, "gateway_id"), TextOf(m, "auth_nonce"), TextOf(m, "auth_tag")))
            && (r.Err? ==> r.error == ProtocolError)
  {
    hide Get;
  }

  datatype Encaps = Encaps(sessionId: string, ciphertext: bytes)

  function ParseMlkemEncaps(m: Message): (r: Result<Encaps>)
    ensures r.Ok? ==> r.value.sessionId != "" && |r.value.ciphertext| == MLKEM768_CIPHERTEXT_BYTES
    ensures r.Err? ==> r.error == ProtocolError
  {
    if !HasType(m, MSG_MLKEM_ENCAPS) then Err(ProtocolError)
    else
      var sessionId :- RequireStr(m, "session_id");
      var text :- RequireStr(m, "ciphertext");
      var ciphertext :- B64d(Str(text));
      if |ciphertext| != MLKEM768_CIPHERTEXT_BYTES then Err(ProtocolError)
      else Ok(Encaps(sessionId, ciphertext))
  }

  /** Exactly which messages carry a ciphertext for a session, and which. */
  lemma EncapsIff(m: Message)
    ensures var r := ParseMlkemEncaps(m);
            && (r.Ok? <==> && HasType(m, MSG_MLKEM_ENCAPS) && HasText(m, "session_id") && HasText(m, "ciphertext")
                           && FieldOf(m, "ciphertext").Bytes?
                           && |FieldOf(m, "ciphertext").data| == MLKEM768_CIPHERTEXT_BYTES)
            && (r.Ok? ==> r.value == Encaps(TextOf(m, "session_id"), FieldOf(m, "ciphertext").data))
  {
    hide Get, Base64.Decode;
  }

  function DecryptProtectedReading(t: Table, m: Message, key: Key, sessionId: string): Result<Message> {
    if !HasType(m, MSG_PROTECTED_READING) then Err(ProcessingError)
    else
      var claimed :- RequireStr(m, "session_id");
      if claimed != sessionId then Err(ProcessingError)
      else
        var plaintext :- AeadDecrypt(t, key, m, SessionAad(sessionId), CryptoError);
        match ParseReading(plaintext)
        case Ok(reading) => Ok(reading)
        case Err(_) => Err(ProcessingError)
  }

  /** The slot a protected reading names on a session. */
  function ReceivedSlot(key: Key, m: Message, sessionId: string): Slot {
    EnvelopeSlot(key, m, SessionAad(sessionId))
  }

  /** What the cloud accepts on a session was encrypted under that session's key, for exactly
      that session id. */
  lemma AcceptedProtected(t: Table, m: Message, key: Key, sessionId: string)
    requires DecryptProtectedReading(t, m, key, sessionId).Ok?
    ensures var slot := ReceivedSlot(key, m, sessionId);
            slot in t && ParseReading(t[slot]) == DecryptProtectedReading(t, m, key, sessionId)
  {
    hide AeadDecrypt, ParseReading;
    AeadDecryptOpens(t, key, m, SessionAad(sessionId), CryptoError);
  }

  /** A reading wrapped for a session is read back on that session. */
  lemma ProtectedRoundTrip(t: Table, key: Key, sessionId: string, nonce: bytes, ciphertext: bytes)
    requires sessionId != "" && |nonce| == NONCE_LENGTH
    requires ProtectedSlot(key, sessionId, nonce, ciphertext) in t
    ensures var plaintext := t[ProtectedSlot(key, sessionId, nonce, ciphertext)];
            DecryptProtectedReading(t, BuildProtectedReading(sessionId, nonce, ciphertext), key, sessionId)
            == if ParseReading(plaintext).Ok? then ParseReading(plaintext) else Err(ProcessingError)
  {
    hide AeadDecrypt, ParseReading, SessionAad;
    var m := BuildProtectedReading(sessionId, nonce, ciphertext);
    GetAt(m, 0);
    GetAt(m, 1);
    GetAt(m, 2);
    GetAt(m, 3);
    AeadRoundTrip(t, ProtectedSlot(key, sessionId, nonce, ciphertext), m, CryptoError);
  }

  /** A reading built with any key and session id is accepted on a session exactly when both
      are that session's, provided its own ciphertext is used under no other key and context. */
  lemma ForeignReadingRefused(t: Table, key: Key, sessionId: string, slot: Slot, builtFor: string)
    requires slot in t && |slot.nonce| == NONCE_LENGTH && slot.aad == SessionAad(builtFor) && builtFor != ""
    requires ParseReading(t[slot]).Ok?
    requires forall s | s in t && s.nonce == slot.nonce && s.ciphertext == slot.ciphertext :: s == slot
    ensures DecryptProtectedReading(t, BuildProtectedReading(builtFor, slot.nonce, slot.ciphertext), key, sessionId).Ok?
       <==> key == slot.key && sessionId == builtFor
  {
    hide AeadDecrypt, ParseReading, SessionAad;
    var m := BuildProtectedReading(builtFor, slot.nonce, slot.ciphertext);
    GetAt(m, 0);
    GetAt(m, 1);
    GetAt(m, 2);
    GetAt(m, 3);
    if sessionId == builtFor {
      if key == slot.key {
        AeadRoundTrip(t, slot, m, CryptoError);
      } else {
        OnlyItsOwnSlot(t, m, slot, key);
      }
    }
  }

  lemma OnlyItsOwnSlot(t: Table, m: Message, slot: Slot, key: Key)
    requires key != slot.key
    requires Get(m, "nonce") == Some(Str(Base64.Encode(slot.nonce)))
    requires Get(m, "ciphertext") == Some(Str(Base64.Encode(slot.ciphertext)))
    requires forall s | s in t && s.nonce == slot.nonce && s.ciphertext == slot.ciphertext :: s == slot
    ensures AeadDecrypt(t, key, m, slot.aad, CryptoError).Err?
  {
    Base64.RoundTrip(slot.nonce);
    Base64.RoundTrip(slot.ciphertext);
    assert Slot(key, slot.nonce, slot.aad, slot.ciphertext) != slot;
  }

  // ----- frame size -----

  predicate PlainText(s: string) {
    forall i | 0 <= i < |s| :: Plain(s[i])
  }

  lemma FieldsArePlain()
    ensures PlainText("type") && PlainText("session_id") && PlainText("nonce") && PlainText("ciphertext")
    ensures PlainText("device_id") && PlainText("seq")
    ensures PlainText(MSG_PROTECTED_READING) && PlainText(MSG_LEGACY_READING)
  {
  }

  lemma Base64IsPlain(data: bytes)
    ensures PlainText(Base64.Encode(data)) && |Base64.Encode(data)| == (|data| + 2) / 3 * 4
  {
    Base64.Shape(data);
  }

  lemma PlainMember(name: string, text: string)
    requires PlainText(name) && PlainText(text)
    ensures |PrintMember(Member(name, Str(text)))| == |name| + |text| + 5
  {
    EscapePlain(name);
    EscapePlain(text);
  }

  /** The longest reading the cloud's reader can take. */
  const MAX_PROTECTED_READING := 49058

  /** With a 16-character session id, the protected frame of an n-byte reading is
      104 + 4 * ceil((n + 16) / 3) bytes, and the cloud's reader takes it exactly when n is at
      most 49058. */
  lemma ProtectedFrameSize(sessionId: string, nonce: bytes, ciphertext: bytes, n: nat)
    requires |sessionId| == 16 && PlainText(sessionId)
    requires |nonce| == NONCE_LENGTH && |ciphertext| == n + TAG_LENGTH
    ensures var m := BuildProtectedReading(sessionId, nonce, ciphertext);
            && |EncodeMessage(m)| == 104 + (n + 18) / 3 * 4
            && (ReadMessage(EncodeMessage(m)).0 == Ok(m) <==> n <= MAX_PROTECTED_READING)
            && (n > MAX_PROTECTED_READING ==> ReadMessage(EncodeMessage(m)).0 == Err(ProtocolError))
  {
    hide EncodeMessage, ReadMessage;
    var m := BuildProtectedReading(sessionId, nonce, ciphertext);
    ProtectedIsWellFormed(sessionId, nonce, ciphertext);
    ProtectedTextLength(sessionId, nonce, ciphertext);
    FrameLength(m);
    ReadFrame(m, []);
    assert EncodeMessage(m) + [] == EncodeMessage(m);
  }

  lemma FrameLength(m: Message)
    requires WellFormedMessage(m)
    ensures |EncodeMessage(m)| == |Print(Obj(m))| + 1
  {
    hide Print, WellFormed;
    PrintAscii(Obj(m)) by {
      WellFormedObj(m);
    }
    Utf8OfAscii(Print(Obj(m)));
  }

  lemma ProtectedTextLength(sessionId: string, nonce: bytes, ciphertext: bytes)
    requires |sessionId| == 16 && PlainText(sessionId) && |nonce| == NONCE_LENGTH
    ensures |Print(Obj(BuildProtectedReading(sessionId, nonce, ciphertext)))| == 103 + (|ciphertext| + 2) / 3 * 4
  {
    hide Print, PrintMember, PlainText, Base64.Encode;
    var m := BuildProtectedReading(sessionId, nonce, ciphertext);
    FieldsArePlain();
    Base64IsPlain(nonce);
    Base64IsPlain(ciphertext);
    PlainMember("type", MSG_PROTECTED_READING);
    PlainMember("session_id", sessionId);
    PlainMember("nonce", Base64.Encode(nonce));
    PlainMember("ciphertext", Base64.Encode(ciphertext));
    FourMembers(m);
  }

  lemma FourMembers(m: Message)
    requires |m| == 4
    ensures |Print(Obj(m))| == |PrintMember(m[0])| + |PrintMember(m[1])| + |PrintMember(m[2])| + |PrintMember(m[3])| + 5
  {
    hide PrintMember;
    assert m[1..][1..] == m[2..] && m[2..][1..] == m[3..];
    assert |PrintMembers(m[3..])| == |PrintMember(m[3])|;
    assert |PrintMembers(m[2..])| == |PrintMember(m[2])| + 1 + |PrintMembers(m[3..])|;
    assert |PrintMembers(m[1..])| == |PrintMember(m[1])| + 1 + |PrintMembers(m[2..])|;
  }

  lemma ThreeMembers(m: Message)
    requires |m| == 3
    ensures |Print(Obj(m))| == |PrintMember(m[0])| + |PrintMember(m[1])| + |PrintMember(m[2])| + 4
  {
    hide PrintMember;
    assert m[1..][1..] == m[2..];
    assert |PrintMembers(m[2..])| == |PrintMember(m[2])|;
    assert |PrintMembers(m[1..])| == |PrintMember(m[1])| + 1 + |PrintMembers(m[2..])|;
  }

  /** The legacy frame of an n-byte reading, and exactly which readings the gateway takes but
      cannot pass on: only ids and sequences of fewer than 13 characters together leave room. */
  lemma CapGap(deviceId: string, sequence: int, sessionId: string,
               nonce: bytes, legacy: bytes, nonce': bytes, protected: bytes, n: nat)
    requires PlainText(deviceId) && PlainText(sessionId) && |sessionId| == 16
    requires |nonce| == |nonce'| == NONCE_LENGTH && |legacy| == |protected| == n + TAG_LENGTH
    ensures var incoming := EncodeMessage(LegacyReading(deviceId, sequence, nonce, legacy));
            var outgoing := EncodeMessage(BuildProtectedReading(sessionId, nonce', protected));
            var room := |deviceId| + |IntText(sequence)|;
            && |incoming| == 91 + room + (n + 18) / 3 * 4
            && (|incoming| <= MAX_MESSAGE_BYTES < |outgoing|
                <==> n > MAX_PROTECTED_READING && room + (n + 18) / 3 * 4 <= 65445)
            && (room >= 13 && |incoming| <= MAX_MESSAGE_BYTES ==> |outgoing| <= MAX_MESSAGE_BYTES)
  {
    hide EncodeMessage, IntText, LegacyReading, BuildProtectedReading, ReadMessage;
    LegacyFrameSize(deviceId, sequence, nonce, legacy);
    ProtectedFrameSize(sessionId, nonce', protected, n);
  }

  lemma LegacyFrameSize(deviceId: string, sequence: int, nonce: bytes, ciphertext: bytes)
    requires PlainText(deviceId) && |nonce| == NONCE_LENGTH
    ensures |EncodeMessage(LegacyReading(deviceId, sequence, nonce, ciphertext))|
         == 91 + |deviceId| + |IntText(sequence)| + (|ciphertext| + 2) / 3 * 4
  {
    hide EncodeMessage, IntText, Print;
    var m := LegacyReading(deviceId, sequence, nonce, ciphertext);
    LegacyIsWellFormed(deviceId, sequence, nonce, ciphertext);
    LegacyTextLength(deviceId, sequence, nonce, ciphertext);
    FrameLength(m);
  }

  lemma LegacyTextLength(deviceId: string, sequence: int, nonce: bytes, ciphertext: bytes)
    requires PlainText(deviceId) && |nonce| == NONCE_LENGTH
    ensures |Print(Obj(LegacyReading(deviceId, sequence, nonce, ciphertext)))|
         == 90 + |deviceId| + |IntText(sequence)| + (|ciphertext| + 2) / 3 * 4
  {
    hide Print, PrintMember, IntText, PlainText, Base64.Encode;
    var m := LegacyReading(deviceId, sequence, nonce, ciphertext);
    FieldsArePlain();
    Base64IsPlain(nonce);
    Base64IsPlain(ciphertext);
    PlainMember("type", MSG_LEGACY_READING);
    PlainMember("device_id", deviceId);
    IntMember("seq", sequence);
    PlainMember("nonce", Base64.Encode(nonce));
    PlainMember("ciphertext", Base64.Encode(ciphertext));
    FiveMembers(m);
    FourMembers(m[1..]);
  }

  lemma IntMember(name: string, n: int)
    requires PlainText(name)
    ensures |PrintMember(Member(name, Int(n)))| == |name| + |IntText(n)| + 3
  {
    EscapePlain(name);
  }

  lemma FiveMembers(m: Message)
    requires |m| == 5
    ensures |Print(Obj(m))| == |PrintMember(m[0])| + |Print(Obj(m[1..]))| + 1
  {
    hide PrintMember;
    assert |PrintMembers(m)| == |PrintMember(m[0])| + 1 + |PrintMembers(m[1..])|;
  }
}
