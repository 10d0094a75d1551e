/** The cryptographic library, taken as ideal functionalities.

    An AEAD ciphertext is a byte string that means something only through a table of what was
    really encrypted: decryption of (key, nonce, context, ciphertext) succeeds exactly when that
    slot was filled by an encryption (section 2.8 of RFC 8439, idealised). ML-KEM-768
    decapsulation is total on ciphertexts of the right length and gives an unrelated secret for a
    ciphertext nobody encapsulated (implicit rejection, section 6.3 of FIPS 203). HKDF and SHA-256
    are injective. Fresh nonces, ciphertexts and secrets are parameters of the callers. */
module Crypto {
  import opened Wrappers
  import opened Text
  import opened Json
  import opened Protocol
  import Base64

  const NONCE_LENGTH := 12
  const TAG_LENGTH := 16
  const MLKEM768_PUBLIC_KEY_BYTES := 1184
  const MLKEM768_CIPHERTEXT_BYTES := 1088

  // ----- keys -----

  datatype Secret = Encapsulated(n: nat) | Rejected(ciphertext: bytes)

  /** A provisioned device or gateway key, or a session key derived with HKDF. */
  datatype Key = Provisioned(id: nat) | Derived(secret: Secret)

  function DeriveSessionKey(secret: Secret): Key { Derived(secret) }

  // ----- AEAD -----

  datatype Slot = Slot(key: Key, nonce: bytes, aad: bytes, ciphertext: bytes)

  /** Everything encrypted so far, with its plaintext. */
  type Table = map<Slot, bytes>

  /** A library encryption may fill this slot with this plaintext. */
  predicate CanSeal(t: Table, slot: Slot, plaintext: bytes) {
    && |slot.nonce| == NONCE_LENGTH
    && |slot.ciphertext| == |plaintext| + TAG_LENGTH
    && (slot in t ==> t[slot] == plaintext)
  }

  function Open(t: Table, slot: Slot): Option<bytes> {
    if slot in t then Some(t[slot]) else None
  }

  /** `_aead_decrypt`: a missing field or a failed tag raises the caller's class, a field that
      does not decode or a nonce of the wrong length raises ProtocolError. */
  function AeadDecrypt(t: Table, key: Key, envelope: Message, aad: bytes, onFailure: Exn): Result<bytes> {
    if Get(envelope, "nonce").None? then Err(onFailure)
    else
      var nonce :- B64d(Get(envelope, "nonce").value);
      if Get(envelope, "ciphertext").None? then Err(onFailure)
      else
        var ciphertext :- B64d(Get(envelope, "ciphertext").value);
        if |nonce| != NONCE_LENGTH then Err(ProtocolError)
        else
          match Open(t, Slot(key, nonce, aad, ciphertext))
          case Some(plaintext) => Ok(plaintext)
          case None => Err(onFailure)
  }

  /** The two fields `_aead_encrypt` returns. */
  function Envelope(nonce: bytes, ciphertext: bytes): Message {
    [Member("nonce", Str(Base64.Encode(nonce))), Member("ciphertext", Str(Base64.Encode(ciphertext)))]
  }

  /** A tag check over claims: the plaintext is ignored, and every malformed field is an
      authentication failure. */
  function TagVerifies(t: Table, key: Key, authNonce: string, authTag: string, claims: bytes): bool {
    match (Base64.Decode(authNonce), Base64.Decode(authTag))
    case (Some(nonce), Some(tag)) => |nonce| == NONCE_LENGTH && Slot(key, nonce, claims, tag) in t
    case _ => false
  }

  /** The slot a tag names; empty bytes stand for fields that do not decode. */
  function TagSlot(key: Key, authNonce: string, authTag: string, claims: bytes): Slot {
    Slot(key, BytesOf(authNonce), claims, BytesOf(authTag))
  }

  function BytesOf(text: string): bytes {
    match Base64.Decode(text)
    case Some(data) => data
    case None => []
  }

  lemma VerifiedTagFilled(t: Table, key: Key, authNonce: string, authTag: string, claims: bytes)
    requires TagVerifies(t, key, authNonce, authTag, claims)
    ensures TagSlot(key, authNonce, authTag, claims) in t
  {
  }

  /** What a message has where a base64 field should be. */
  datatype Field = Absent | Malformed | Bytes(data: bytes)

  function FieldOf(m: Message, name: string): Field {
    match Get(m, name)
    case None => Absent
    case Some(v) => (match B64d(v) case Ok(data) => Bytes(data) case Err(_) => Malformed)
  }

  function FieldBytes(m: Message, name: string): bytes {
    match FieldOf(m, name)
    case Bytes(data) => data
    case _ => []
  }

  /** The slot an envelope names; empty bytes stand for fields that do not decode. */
  function EnvelopeSlot(key: Key, envelope: Message, aad: bytes): Slot {
    Slot(key, FieldBytes(envelope, "nonce"), aad, FieldBytes(envelope, "ciphertext"))
  }

  /** A field that is there and does not decode, or a nonce of the wrong length; the ciphertext is
      looked at only after a nonce that decodes, and the length only when both do. */
  predicate BrokenEnvelope(m: Message) {
    var nonce, ciphertext := FieldOf(m, "nonce"), FieldOf(m, "ciphertext");
    || nonce.Malformed?
    || (nonce.Bytes? && ciphertext.Malformed?)
    || (nonce.Bytes? && ciphertext.Bytes? && |nonce.data| != NONCE_LENGTH)
  }

  /** Both fields are there and well-formed. */
  predicate WholeEnvelope(m: Message) {
    var nonce, ciphertext := FieldOf(m, "nonce"), FieldOf(m, "ciphertext");
    nonce.Bytes? && ciphertext.Bytes? && |nonce.data| == NONCE_LENGTH
  }

  lemma Exclusive(m: Message)
    ensures !(BrokenEnvelope(m) && WholeEnvelope(m))
  {
    hide FieldOf;
  }

  /** A broken envelope is a protocol error whatever the caller's class; a whole one opens exactly
      when its slot was filled; every other failure is the caller's class. */
  lemma AeadOutcome(t: Table, key: Key, envelope: Message, aad: bytes, onFailure: Exn)
    ensures var r := AeadDecrypt(t, key, envelope, aad, onFailure);
            var slot := EnvelopeSlot(key, envelope, aad);
            && (r.Ok? <==> WholeEnvelope(envelope) && slot in t)
            && (r.Ok? ==> r.value == t[slot])
            && (r.Err? ==> r.error == if BrokenEnvelope(envelope) then ProtocolError else onFailure)
  {
    hide Base64.Decode, Get;
  }

  /** Decryption succeeds only on a slot that was filled. */
  lemma AeadDecryptOpens(t: Table, key: Key, envelope: Message, aad: bytes, onFailure: Exn)
    requires AeadDecrypt(t, key, envelope, aad, onFailure).Ok?
    ensures EnvelopeSlot(key, envelope, aad) in t
    ensures t[EnvelopeSlot(key, envelope, aad)] == AeadDecrypt(t, key, envelope, aad, onFailure).value
  {
    hide B64d, Get;
  }

  /** An envelope that was really encrypted opens to its plaintext. */
  lemma AeadRoundTrip(t: Table, slot: Slot, envelope: Message, onFailure: Exn)
    requires slot in t && |slot.nonce| == NONCE_LENGTH
    requires Get(envelope, "nonce") == Some(Str(Base64.Encode(slot.nonce)))
    requires Get(envelope, "ciphertext") == Some(Str(Base64.Encode(slot.ciphertext)))
    ensures AeadDecrypt(t, slot.key, envelope, slot.aad, onFailure) == Ok(t[slot])
  {
    Base64.RoundTrip(slot.nonce);
    Base64.RoundTrip(slot.ciphertext);
  }

  // ----- ML-KEM -----

  /** The encapsulations made to the cloud's public key. */
  type KemTable = map<bytes, Secret>

  function Decapsulate(kem: KemTable, ciphertext: bytes): Secret {
    if ciphertext in kem then kem[ciphertext] else Rejected(ciphertext)
  }

  // ----- fingerprints -----

  /** SHA-256 as an injective constructor. */
  datatype Digest = Sha256(preimage: bytes)
}
