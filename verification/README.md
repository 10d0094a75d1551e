# Verification of the device, gateway and cloud pipeline

This project models an authenticated telemetry pipeline and proves what it promises. A legacy device
encrypts sequence-numbered readings under its own key. A gateway authenticates the device's hello,
filters replays and re-encrypts each reading for a cloud session keyed with ML-KEM-768. The cloud
authenticates the gateway, filters replays again and stores the readings.

The model has four layers.

- **Bytes.** UTF-8, decimal integers, base64, a printer and parser for the JSON the program sends,
  newline framing with the size cap, and the byte encodings that are authenticated (`Text`, `Base64`,
  `Json`, `Protocol`). Nothing above this layer is abstracted from bytes: every message is a parsed
  JSON object, every tag and ciphertext is base64 in a field.
- **Processing.** Parsers, policies, tag checks and decryption as pure functions (`Crypto`,
  `GatewayProcessing`, `CloudProcessing`), and the stateful classes with their loops as methods proved
  against specification functions (`Replay`, `Accounting`, `Store`, `Gateway`, `Cloud`, `Channel`,
  `DeviceState`, `Device`). `GatewayConnection` and `CloudConnection` say what one whole connection
  does, for any bytes, without the loops.
- **Processes.** State machines that interleave the threads of one process: `GatewayRuns`, `CloudRuns`,
  and `ChannelRuns`, where every read and write of a shared field of the cloud channel is a step of its
  own. `GatewayAlone`, `CloudAlone` and `ChannelAlone` tie them to the classes: a handler, a reconnect
  loop or a send that runs alone is a run of the machine with exactly the effect of the class's method.
- **Deployment.** `System` composes any number of gateway processes, one cloud process, the holders of
  the device keys and a network that can forge, replay, reorder and drop. What a party reads is a
  message its reader returns for some bytes. `Delivery` constructs runs of it. `Pipeline` composes the
  two replay guards, `Handshake` the two ends of one establishment.

Cryptography is ideal. An AEAD ciphertext (section 2.8 of RFC 8439) opens only if its key, nonce,
context and ciphertext are those of an encryption that was made; a table records the encryptions.
ML-KEM-768 decapsulation (section 7 of FIPS 203) is total on ciphertexts of the right length, and a
ciphertext nobody encapsulated gives a secret nobody else has (section 6.3). HKDF (RFC 5869) and
SHA-256 are injective. Fresh nonces, ciphertexts, session ids and secrets, the outcomes of sends and
everything a peer sends are parameters. A key the network does not hold is one it never encrypts under.

## What the code does differently from what it says

- `gateway/cloud_channel.py` says that `connect_and_establish` retries until it succeeds. Its handler
  names `OSError`, `ProtocolError` and `CryptoError`; `ConnectionClosedError` is a subclass of none of
  them. A peer that accepts the connection and closes it cleanly while a handshake reply is awaited
  therefore ends the reconnect thread: the flag is cleared, the state stays ESTABLISHING, and nothing
  reconnects any more; a silent peer is a timeout and is retried. `Channel.EscapesIff` says exactly
  which attempts end so, `ChannelRuns.AbandonedRun` is such a run, and `ChannelRuns.UsableAtRestIff`
  gives the exact condition under which a channel at rest is usable.
- A send that fails between a reconnect loop's storing its socket and its clearing `_reconnecting`
  starts no new loop and leaves ESTABLISHED with no socket (`ChannelRuns.StrandedRun`). These two are
  the only ways to lose the channel for good (`ChannelRuns.UsableAtRestIff`,
  `ChannelRuns.SkippedOnlyInWindow`, `ChannelRuns.AbandonedOnlyByClose`, `ChannelRuns.StuckIsForever`).
- Check-then-send and check-then-store are not atomic. With two live connections of one device the
  sends may overtake each other, and the second guard then drops a reading the first accepted:
  `Delivery.OvertakenRun` is such a run of the whole deployment. Over every
  run the second guard drops none exactly when what reaches it is positive and increasing for each
  device (`Delivery.NothingDroppedIff`).
- The gateway takes the sequence from the envelope, the cloud takes device id and sequence from the
  plaintext, and nothing compares the two. A registered device that encrypts a reading claiming
  another device has it stored under that other device (`Delivery.ClaimIsStored`). A stored reading
  claims the device and sequence it was accepted under exactly when the encrypted bytes do
  (`System.EndToEnd`), and what the device program encrypts always does (`Device.LivesAreFaithful`).

- Both readers cap a frame at 65536 bytes, and wrapping a reading can make its frame longer. The
  gateway accepts and sends such a reading, and the cloud's reader refuses it and closes the session
  without storing it: with 16-character session ids, exactly the readings of more than 49058 bytes
  (`Pipeline.StoredIffShort`), which the gateway's reader takes only from ids and sequences of fewer
  than 13 characters together (`CloudProcessing.CapGap`). The same cap bounds the ids with which a
  session can be established at all (`Handshake.EstablishesIff`, `Handshake.FramesFitIff`).

## Model

| member | source | states |
|---|---|---|
| Text.Utf8RoundTrip | common/protocol.py:80-86 | decoding undoes UTF-8 encoding for every string |
| Text.DecimalRoundTrip | common/protocol.py:118-121 | decimal text of a number reads back as that number, with no leading zero |
| Base64.RoundTrip | common/protocol.py:46-56 | base64 decoding undoes encoding for all bytes |
| Base64.Shape | common/protocol.py:46-48 | encoded text has length 4*ceil(n/3) and only base64 symbols, so it needs no JSON escape |
| Json.LoadsPrint | common/protocol.py:80-86 | every printable JSON value is parsed back from its own text |
| Json.PrintInjective | common/protocol.py:130-146 | two values with the same JSON text are equal |
| Json.PrintAscii | common/protocol.py:80-86 | printed JSON is printable ASCII, so it contains no raw newline |
| Protocol.Stream.Read | common/protocol.py:89-113 | returns the first frame or the right error and leaves the rest of the stream unread |
| Protocol.ReadMessage | common/protocol.py:89-113 | reading never grows the stream and a message that was read has shortened it |
| Protocol.ReadFrame | common/protocol.py:80-113 | an encoded message in front of any bytes is read back with those bytes left, exactly when it is within 65536 bytes; otherwise a protocol error |
| Protocol.ReadTextLine | common/protocol.py:99-113 | a complete printable line within the cap is read as its JSON object, and refused with a protocol error when it is not one object |
| Protocol.OnlyOneObject | common/protocol.py:107-113 | a line that holds another JSON value, two values or nothing is refused, and exactly that line is consumed |
| Protocol.StreamRoundTrip | common/protocol.py:80-113 | reading the concatenation of any sendable messages yields them all and then a clean close |
| Protocol.TruncatedStream | common/protocol.py:89-113 | a stream cut anywhere yields a prefix of the messages, then a clean close exactly at a message boundary and a protocol error otherwise |
| Protocol.LegacyAadInjective | common/protocol.py:118-121 | reading context determines device id and sequence even when ids contain colons |
| Protocol.HelloClaimsInjective | common/protocol.py:130-136 | hello claims determine device id and capability list |
| Protocol.GatewayClaimsInjective | common/protocol.py:139-146 | gateway claims determine the gateway id |
| Protocol.FamiliesDisjoint | common/protocol.py:118-146 | no byte string is reading context, hello claims and gateway claims at once, so no tag is valid in another role |
| Protocol.ParseReading | common/protocol.py:149-165 | accepts only objects with the four required fields, and every refusal is a ProtocolError |
| Protocol.ReadingRoundTrip | common/protocol.py:149-165 | a serialised reading parses back to itself |
| Protocol.SensorReadingFields | device/sensor.py:17-38 | what the sensor writes is a valid reading that carries its own device id and sequence |
| Crypto.AeadDecryptOpens | common/crypto.py:86-111 | decryption succeeds only on a slot some encryption filled, and returns what was encrypted |
| Crypto.AeadRoundTrip | common/crypto.py:73-111 | an envelope that was really encrypted opens to its plaintext |
| Crypto.AeadOutcome | common/crypto.py:86-111 | a field that does not decode or a nonce of another length is a protocol error, a whole envelope opens exactly when its slot was filled, and every other failure is the caller's class |
| Crypto.VerifiedTagFilled | common/crypto.py:156-211 | a tag that verifies was made under that key over exactly those claims |
| GatewayProcessing.FallbackIff | gateway/processing.py:77-102 | fallback is allowed exactly for a registered key that tagged these claims, with the legacy capability and without the modern one |
| GatewayProcessing.HelloIff | gateway/processing.py:37-60 | exactly which messages are hellos, what they claim, and that every refusal is a ProtocolError |
| GatewayProcessing.ParseMlkemPubkeyReply | gateway/processing.py:107-120 | a reply that is accepted carries a key of 1184 bytes, and every refusal is a ProtocolError |
| GatewayProcessing.PubkeyReplyIff | gateway/processing.py:107-120 | exactly which replies carry a key, and which |
| GatewayProcessing.EstablishedReplyIff | gateway/processing.py:123-129 | a reply confirms a session exactly when it names that very id; every refusal is a ProtocolError |
| GatewayProcessing.VerifyCloudPublicKey | gateway/processing.py:134-151 | passes exactly the key whose fingerprint is pinned; no pin passes nothing |
| GatewayProcessing.AcceptedReading | gateway/processing.py:156-178 | an accepted reading was encrypted under that device's key for that device and sequence, and is a valid reading |
| GatewayProcessing.LegacyRoundTrip | gateway/processing.py:156-178 | a device's own message is accepted with its plaintext and sequence |
| CloudProcessing.ParseMlkemEncaps | cloud/processing.py:46-56 | accepts only a non-empty session id with a ciphertext of 1088 bytes; every refusal is a ProtocolError |
| CloudProcessing.EncapsIff | cloud/processing.py:46-56 | exactly which messages carry a ciphertext for a session, and which |
| CloudProcessing.RequestIff | cloud/processing.py:16-29 | exactly which messages are requests, what they claim, and that every refusal is a ProtocolError |
| CloudProcessing.AcceptedProtected | cloud/processing.py:59-78 | an accepted reading was encrypted under this session's key for exactly this session id |
| CloudProcessing.ProtectedRoundTrip | cloud/processing.py:59-78 | a reading wrapped for a session is read back on it, or refused as unprocessable when it is no valid reading |
| CloudProcessing.ForeignReadingRefused | cloud/processing.py:67-74 | a reading built with any key and session id is accepted on a session exactly when both are that session's |
| CloudProcessing.ProtectedFrameSize | gateway/processing.py:181-194 | with a 16-character session id the frame of an n-byte reading is 104 + 4*ceil((n+16)/3) bytes and is read exactly when n is at most 49058 |
| CloudProcessing.LegacyFrameSize | device/device.py:66-71 | exact size of the device's frame |
| CloudProcessing.CapGap | gateway/gateway.py:124-148 | exactly which readings the gateway can take in but the cloud's reader cannot: none once device id and sequence take 13 characters |
| Replay.ReplayGuard.CheckAndUpdate | common/replay.py:23-29 | accepts exactly a sequence above the last recorded one and records it; otherwise changes nothing |
| Replay.LastIsHighest | common/replay.py:14-29 | the recorded value is the maximum of 0 and every sequence ever presented for the device |
| Replay.FilterIsRecordHighs | common/replay.py:14-29 | what a guard accepts over its life is exactly the running record highs, defined without any state |
| Replay.FilterCommutes | common/replay.py:23-29 | filtering commutes with projection to one device: devices do not interfere |
| Replay.FilterIncreases | common/replay.py:14-17 | accepted sequences of a device are positive and strictly increasing |
| Replay.HighestPassesOnce | common/replay.py:14-17 | nothing passes twice, and the largest positive sequence presented passes exactly once in any arrival order |
| Replay.AcceptsIffNew | common/replay.py:23-29 | from any state of a guard, it accepts exactly the sequences above what it has and above all that came before |
| Replay.NewOnesAreFiltered | common/replay.py:23-29 | for a guard with a history those are what filtering the longer history adds, and the guard ends at the highest |
| Accounting.Bump | common/metrics.py:50-52 | exactly one counter moves, by one |
| Accounting.Metrics.Inc | common/metrics.py:50-52 | the object's counters move as Bump says |
| Store.PushedIsLastN | cloud/store.py:16-22 | appending to a bounded deque that holds the last n of a history gives the last n of the longer history |
| Store.ReadingStore.Add | cloud/store.py:20-22 | appends to the unbounded log while the bounded deque stays its last max_readings elements |
| Store.ReadingStore.Recent | cloud/store.py:24-27 | the last n stored readings; for n = 0 all of them |
| Store.ReadingStore.CountReadings | cloud/store.py:29-31 | the smaller of the number of readings ever added and the capacity |
| Gateway.DeviceServer.HandleConnection | gateway/gateway.py:59-73 | one connection does to guard, seen devices, counters and forwarded readings exactly what Handle says, with that ending |
| Gateway.DeviceServer.AdmitOrServe | gateway/gateway.py:75-122 | lookup before tag check, one rejection per refusal, one activation and at most one detection per admission, then serving |
| Gateway.DeviceServer.ServeLegacy | gateway/gateway.py:124-152 | the serve loop as a recursion over the unread bytes |
| Gateway.KeptIsAuthentic | gateway/gateway.py:129-145 | a reading is kept exactly when it opens under the device's key and its sequence passes the guard, and only then does the guard move |
| Gateway.ScreenIff | gateway/gateway.py:129-145 | from a message's fields and the table alone: exactly which messages are kept, which are dropped, and which close the connection with a ProtocolError |
| Gateway.TurnMeaning | gateway/gateway.py:126-152 | what one turn of the serve loop does to guard, deliveries, every counter and the connection |
| Gateway.HonestReadingForwarded | gateway/gateway.py:126-148 | a device's own reading reaches the channel byte for byte exactly when its sequence is new and the send succeeds |
| Gateway.AdmissionMeaning | gateway/gateway.py:75-122 | admission exactly for a registered device whose key tagged legacy-only claims; one activation per admission, one detection the first time, one rejection per refusal and nothing else |
| Gateway.HandleLedger | gateway/gateway.py:59-152 | the books of one connection: each message is processed, dropped or closes the connection; each processed one is forwarded or fails; each counted ending is one error |
| GatewayConnection.ServeMeaning | gateway/gateway.py:124-152 | for any bytes: the loop goes on over everything dropped or delivered, and ends at the first violation, the first reading the channel does not take, or the end of the stream, with the new readings delivered in order |
| GatewayConnection.HandleMeaning | gateway/gateway.py:59-152 | for any bytes: what a connection without a message, without a hello, with a refused hello, or of an admitted device does to guard, deliveries, every counter, and how it ends |
| GatewayConnection.OwnReadingsDelivered | gateway/gateway.py:124-152 | a device's own hello and readings of any number: exactly those new to the guard are delivered, in order and byte for byte, the others are rejected, and the connection ends with the clean close |
| GatewayRuns.StepKeepsInv | gateway/gateway.py:59-152 | every step of every thread keeps: only registered devices served, accepted stream = filtered presented stream, every acceptance and fallback grounded in an encryption |
| GatewayRuns.StepKeepsLedger | gateway/gateway.py:59-152 | every step of every thread, with any number of handlers inside a send and the channel counting on the same metrics, keeps the books of the process |
| GatewayRuns.AcceptedAreRecordHighs | gateway/gateway.py:138-145 | over all connections of a process, accepted readings are the record highs of what was presented, and none repeats |
| GatewayAlone.HandleIsARun | gateway/gateway.py:59-152 | for any bytes, a handler that is not interleaved is a run of the process with the guard, counters, ending and deliveries of HandleConnection |
| Cloud.CloudServer.HandleConnection | cloud/cloud.py:96-126 | one connection does to registry, guard, log and counters exactly what Handle says, with eviction of a session it established |
| Cloud.CloudServer.EstablishSession | cloud/cloud.py:128-171 | authentication before any reply, registration before the last reply, and every failure with its own ending |
| Cloud.CloudServer.ReceiveReadings | cloud/cloud.py:173-203 | the receive loop as a recursion over the unread bytes |
| Cloud.CloudServer.ReceiveOne | cloud/cloud.py:176-203 | one turn of that loop: which errors drop a message, which leave the loop, and what is stored |
| Cloud.KeptIsAuthentic | cloud/cloud.py:178-199 | a reading is kept exactly when it opens on this session and its claims pass the guard; it was then encrypted for exactly this session |
| Cloud.ScreenIff | cloud/cloud.py:178-199 | from a message's fields and the table alone: exactly which messages are kept, which are dropped, and which close the connection, and with which error |
| Cloud.TurnMeaning | cloud/cloud.py:175-203 | what one turn of the receive loop does to guard, log, every counter and the connection |
| Cloud.EncapsMeaning | cloud/cloud.py:150-162 | an accepted ciphertext registers its own session id with the decapsulated key and the authenticated gateway, and nothing else; a refused one changes nothing |
| Cloud.RegistryAfterHandle | cloud/cloud.py:96-171 | a handler leaves the registry without its own id and otherwise as it was; only a failed last reply leaves an entry behind |
| Cloud.HandleLedger | cloud/cloud.py:96-203 | the books of one connection, refused gateways counted as rejections and nothing twice |
| CloudConnection.EstablishMeaning | cloud/cloud.py:128-171 | for any bytes: exactly when a session is established, with which id and key and what is left unread; each failure with its ending, and that only a failed last reply leaves an entry |
| CloudConnection.OwnHandshakeEstablishes | cloud/cloud.py:128-171 | a gateway's own two messages establish its session, and whatever follows is left unread |
| CloudConnection.ReceiveMeaning | cloud/cloud.py:173-203 | for any bytes: the loop goes on over everything dropped or stored, and ends at the first violation or the end of the stream, with the new readings in the log in order |
| CloudConnection.HandleMeaning | cloud/cloud.py:96-203 | for any bytes: what a connection does to registry, guard, log, every counter, and how it ends; failed authentications are rejections |
| CloudConnection.OwnReadingsStored | cloud/cloud.py:96-203 | a gateway's own handshake and wrapped readings of any number: exactly those new to the guard enter the log, in order, the others are rejected, and the session is evicted at the clean close |
| CloudRuns.StepKeepsInv | cloud/cloud.py:96-203 | every step of every handler keeps: kept = filtered presented, each kept reading stored once or waiting at one handler, grounding, and the registry invariant |
| CloudRuns.StepKeepsLedger | cloud/cloud.py:96-203 | every step of every handler, with any number between the guard's check and the store, keeps the books of the cloud and what its store holds |
| CloudRuns.AtMostOnce | cloud/cloud.py:190-199 | no two readings of the log have the same device and sequence |
| CloudRuns.RegistryIsLive | cloud/cloud.py:96-171 | with distinct ids the registry is exactly the ids of handlers that have not evicted them, with their keys |
| CloudAlone.HandleIsARun | cloud/cloud.py:96-203 | for any bytes, a handler that is not interleaved is a run of the process with the desk and ending of HandleConnection |
| Channel.CloudChannel.ConnectAndEstablish | gateway/cloud_channel.py:74-97 | the retry loop does to the channel exactly what Connect says |
| Channel.CloudChannel.EstablishOnce | gateway/cloud_channel.py:99-149 | one attempt does to the channel exactly what Once says, frames on the wire included |
| Channel.CloudChannel.ReceivePinnedKey | gateway/cloud_channel.py:113-124 | succeeds exactly when the first reply carries the pinned, loadable key, and leaves what follows unread |
| Channel.CloudChannel.ReceiveConfirmation | gateway/cloud_channel.py:128-137 | succeeds exactly when the next reply confirms the attempt's own session id |
| Channel.CloudChannel.SendReading | gateway/cloud_channel.py:151-168 | sends on a usable session, refuses otherwise, and a failed send invalidates |
| Channel.CloudChannel.Invalidate | gateway/cloud_channel.py:170-179 | no socket, no key, FAILED, and at most one reconnect thread |
| Channel.CloudChannel.StartReconnect | gateway/cloud_channel.py:181-187 | starts a thread exactly when none is flagged |
| Channel.CloudChannel.ReconnectLoop | gateway/cloud_channel.py:189-195 | the flag is cleared however the loop ends |
| Channel.OnceMeaning | gateway/cloud_channel.py:99-149 | an attempt's result depends on peer and pin only; the session changes only on success, and then to this attempt's id, key and socket together |
| Channel.PinBeforeEncapsulation | gateway/cloud_channel.py:118-135 | no ciphertext leaves before a reply that carried exactly the pinned key |
| Channel.SucceedsIff | gateway/cloud_channel.py:99-149 | exactly when an attempt establishes: reachable, request sent, pinned key read and loaded, ciphertext sent, and a reply that confirms its own session id |
| Channel.AttemptOnWire | gateway/cloud_channel.py:106-135 | exactly when none, one or two frames leave, all on the attempt's socket; the cloud reads the first as this gateway's authenticated request and the second as exactly the attempt's session id and ciphertext |
| Channel.ConnectMeaning | gateway/cloud_channel.py:74-97 | attempts go up to the first that succeeds or escapes, within the limit; each failed one before is one error; the outcome and the resulting session follow |
| Channel.EscapesIff | gateway/cloud_channel.py:84-97 | an attempt escapes the retry loop exactly when the peer closes cleanly before its first reply or after a pinned one; a peer that falls silent or closes within a reply does not |
| Channel.SendMeaning | gateway/cloud_channel.py:158-187 | a send goes out exactly on a usable session with a working socket, and a failed one invalidates |
| Channel.SentOpensAtPeer | gateway/cloud_channel.py:160-165 | what was sent frames, reads and opens at the peer to the reading it was made from |
| Channel.FailThenReconnect | gateway/cloud_channel.py:166-195 | after a failed send and its reconnect the channel is usable, with a new session, exactly when the attempt that ended the loop succeeded |
| ChannelRuns.StepKeepsInv | gateway/cloud_channel.py:69-195 | every field access of every thread keeps the lock, loop, field, recovery, freshness and read invariants |
| ChannelRuns.ChannelConsistent | gateway/cloud_channel.py:99-195 | in every interleaving, a socket and a key that are both set come with the session id from one attempt that passed the pin check, and at most one establishing thread is live |
| ChannelRuns.ChannelRecovers | gateway/cloud_channel.py:146-195 | an unusable channel is being invalidated or has a live loop, unless a send failed in the window or a handshake was closed cleanly |
| ChannelRuns.UsableAtRestIff | gateway/cloud_channel.py:84-195 | a channel at rest is usable if and only if no invalidation was skipped and no loop abandoned |
| ChannelRuns.SkippedOnlyInWindow | gateway/cloud_channel.py:146-195 | an invalidation is skipped only between storing the socket and clearing the flag, after a send failed there |
| ChannelRuns.StuckIsForever | gateway/cloud_channel.py:158-195 | after either the channel is unusable for the rest of every run |
| ChannelRuns.StrandedRun | gateway/cloud_channel.py:146-195 | a concrete run that ends ESTABLISHED with no socket and no loop |
| ChannelRuns.AbandonedRun | gateway/cloud_channel.py:120-195 | a concrete run that ends ESTABLISHING with no socket and no loop |
| ChannelRuns.StaleSessionRefused | gateway/cloud_channel.py:158-165 | in every interleaving a delivered message that mixes old and new key and id is accepted on its socket's session exactly when both are that session's |
| ChannelAlone.ReconnectIsARun | gateway/cloud_channel.py:84-195 | a reconnect loop that is not interleaved is a run of the machine that leaves the fields as ReconnectLoop does, and is abandoned exactly when an attempt escapes |
| ChannelAlone.SendIsARun | gateway/cloud_channel.py:151-187 | a send that is not interleaved is a run of the machine that leaves the fields as SendReading does, delivers exactly when it returns, and starts a loop exactly when none is flagged |
| System.StepKeepsInv | gateway/gateway.py:59-152 | every step of every party and of the network keeps: each filled slot is explained by who filled it, and all process invariants |
| System.DeviceAgreement | gateway/processing.py:156-178 | device-hop injective agreement against an active network, for every device whose key is secret |
| System.FallbackSafety | gateway/gateway.py:75-122 | over whole runs, fallback is activated for such a device only if its key tagged exactly those claims, legacy present and modern absent |
| System.GatewayAuthentication | cloud/cloud.py:130-140 | over whole runs, a gateway with a secret key is admitted only on a tag that gateway made over its own id |
| System.KeyIsSecretIff | gateway/cloud_channel.py:118-138 | the network knows an attempt's key exactly when it was encapsulated to another key than the cloud's; a pin on the cloud's key rules that out |
| System.KeptWasWrapped | cloud/processing.py:59-78 | every reading kept on a session whose key the network does not know was wrapped by one gateway process, from a reading it had accepted, for exactly this session id |
| System.SessionBinding | gateway/cloud_channel.py:99-149 | a pinned attempt's key stays unknown to the network, and whatever is stored on a connection with that key was wrapped by that attempt's channel for exactly that connection's id, replays of whole handshakes included |
| System.RejectedStoresNothing | common/crypto.py:274-288 | nothing is ever stored on a session whose key came from implicit rejection |
| System.StoredAtMostOnce | cloud/cloud.py:190-199 | at most once per device and sequence, over any gateways, reconnects, restarts and replays of one cloud process |
| System.RegistryLifecycle | cloud/cloud.py:96-171 | over whole runs every registered id belongs to a live handler or one whose reply failed, and with distinct ids and no such failure the registry is exactly the live sessions |
| System.GatewayLedger | gateway/gateway.py:59-152 | over every run: received + declined = processed + dropped + readings that closed a connection; processed = forwarded + failed forwards + handlers inside a send; errors = counted endings + failed attempts of the channel; activations, distinct detected devices and established sessions are exact |
| System.CloudLedger | cloud/cloud.py:96-203 | over every run: received + refused = processed + dropped + messages that closed a connection + readings waiting to be stored; one log entry per processed reading, one session count per registration, and the store holds the last min(processed, 1000) log entries |
| System.EndToEnd | cloud/cloud.py:185-199 | a reading stored on a session unknown to the network comes from bytes a gateway accepted for a registered device, encrypted by that device if its key is secret; it claims that device and sequence exactly when those bytes do, as an honest device's always do |
| System.EndToEndInjective | cloud/cloud.py:190-199 | no two such stored readings came from one encryption, at either hop |
| Delivery.Delivers | gateway/gateway.py:124-152 | for every deployment that pins its cloud and every valid reading a registered device sends in frames both readers take, whatever it claims, there is a run that ends with exactly that reading stored, on a session unknown to the network |
| Delivery.ClaimIsStored | cloud/cloud.py:185-199 | a registered device's reading that claims another device is stored under that other device |
| Delivery.OvertakenRun | gateway/gateway.py:138-147 | a run with two connections of one honest device in which the gateway accepts readings 1 and 2 and sends both, and the cloud's log holds only 2 |
| Delivery.NothingDroppedIff | cloud/cloud.py:190-198 | over every run the cloud keeps all that reaches its guard exactly when that is positive and increasing for each device |
| Pipeline.TransparentIff | cloud/cloud.py:190-198 | a guard passes a whole stream exactly when it is positive and increasing for each device |
| Pipeline.StepKeepsInv | gateway/gateway.py:126-148 | every step keeps: per device, stored + on the wire + waiting = accepted, in order; the second guard has rejected nothing; and the cloud closes only on a reading of more than 49058 bytes |
| Pipeline.HonestReadingStored | cloud/cloud.py:176-200 | a wrapped reading with a fresh claim is stored as parsed and counted once |
| Pipeline.TwoGuardsAreOne | cloud/cloud.py:175-200 | over every run the composed pipeline refines one strictly increasing filter over the arrivals at the gateway, read by the cloud up to the first accepted reading of more than 49058 bytes |
| Pipeline.StoredIffShort | common/protocol.py:99-113 | a device's reading of any length that the gateway's reader takes is accepted and sent, and is stored exactly when it has at most 49058 bytes; otherwise the cloud closes the session on it |
| Pipeline.WireIsReadBack | common/protocol.py:99-113 | with readings of at most 49058 bytes the frames between gateway and cloud are read back one by one |
| Handshake.StepKeepsInv | cloud/cloud.py:128-171 | every step of both sides, of other handlers and of a substituting network keeps the handshake invariant |
| Handshake.Agreement | gateway/cloud_channel.py:99-149 | on an honest FIFO transport, when the gateway is established the cloud had registered the same id with the same key under the authenticated gateway id, and every frame was within the cap |
| Handshake.Completes | gateway/cloud_channel.py:99-149 | the two sides do establish when every frame of the exchange is within the cap |
| Handshake.EstablishesIff | gateway/cloud_channel.py:99-149 | on an untouched transport a schedule establishes both sides if and only if every frame is within the cap |
| Handshake.FramesFitIff | common/protocol.py:99-113 | only an id can make a frame too long: for plain ids, a gateway id over 63996 or a cloud id over 63902 characters |
| Handshake.EndingEvicts | cloud/cloud.py:118-126 | a handler that ends while it serves removes its own id and nothing else; one that could not confirm its session leaves it |
| Handshake.SubstitutionSilences | common/crypto.py:274-288 | with a replaced ciphertext the keys agree, and a gateway reading is accepted, exactly when it decapsulates to the same secret |
| Handshake.OtherCiphertextOtherSecret | common/crypto.py:279-283 | no other ciphertext decapsulates to that secret |
| DeviceState.StateFile.Load | device/state.py:11-16 | the stored integer, or 0 for a missing or unreadable file |
| DeviceState.LoadSaved | device/state.py:11-26 | every saved counter is loaded back |
| DeviceState.PaddedIsRead | device/state.py:11-16 | a decimal number with a minus sign and white space around it is read as that number |
| DeviceState.UnreadableIsZero | device/state.py:11-16 | a missing or blank file, one that is not text, and one with a foreign character start the device at 0 |
| DeviceState.TornWriteNeverAhead | device/state.py:22-26 | a write torn after any number of bytes never reads as more than the counter being saved |
| Device.Device.Run | device/device.py:40-75 | one life of the program sends and saves exactly what Live says |
| Device.LiveMeaning | device/device.py:40-75 | one run sends one frame for each whole turn and one more if the next died before its save, numbered on from the file, each with its own reading and nonce; the file holds the last whole turn's number; without a connection nothing happens |
| Device.LivesAreFaithful | device/device.py:58-71 | over any lives, all a device encrypts carries its own id and the sequence of its context |
| Device.OwnHelloDecision | gateway/processing.py:37-102 | a registered device's own hello is parsed to its claims and decided by them |
| Device.CrashRestartBound | device/device.py:58-72 | the saved counter is at most one behind the last sent; rejections never exceed the turns cut between send and save, and when all frames arrive they are exactly those less the one pending, and every number is accepted once |

## Left out

- Sockets, accept loops, thread creation, timeouts, sleeps, logging and argument parsing: only the steps they trigger are modelled; a read that fails with an operating-system error is a step of the process machines and an outcome of the channel's attempts, but not of the stream class.
- The internals of ChaCha20-Poly1305, ML-KEM, HKDF and SHA-256: ideal, as described above.
- Configuration lookup, health endpoint, Docker files and the bootstrap script: registries and the pin are parameters.
- Metric timing aggregates and device or gateway connection counters: unrelated to the ledgers. Which attempts of the channel fail is free in `System.GatewayLedger`; which ones are counted is `Channel.ConnectMeaning`.
- Persistence of the ML-KEM private key, and a restart of the cloud process: replay state is lost there by design.
- Device.CrashRestartBound: assumes an atomic counter file that is not lost, frames that reach one guard in the order they were sent, across restarts too, and a gateway that keeps running; torn writes are covered only by `DeviceState.TornWriteNeverAhead`.
- JSON beyond what the program sends: NaN and Infinity, lone surrogates, nesting limits, the interpreter's limit on digits of an integer, and non-ASCII decimal digits in the counter file. Numbers with a fraction or exponent stay opaque tokens.
- Injectivity of base64 decoding: the library accepts non-canonical trailing bits, and so does the model.
- Cloud.CloudServer.ReceiveOne: assumes that a reading's `device_id` is a string; here any other value ends the handler with an error no handler names, as lists and objects do in the code, while numbers, booleans and null would be taken as ids.
- Pipeline.TwoGuardsAreOne: assumes one live connection per device, one session, FIFO delivery and no failing send; without the first, `Delivery.NothingDroppedIff` is the exact condition.
- Delivery.Delivers: its frames are the ones the program writes; a network that re-encodes a frame, for instance without ASCII escapes, could bring a longer one within the cap, so the frame condition is not shown to be necessary.
- System.KeptWasWrapped: a gateway process may wrap with any pair of key and session id of its established attempts, and wrap a reading more than once, which covers more than `ChannelRuns` allows.
- ChannelRuns.ChannelRecovers: safety only; that a loop eventually establishes depends on the peer and is not stated.
