/** Runs of the whole system that show what can happen in it, with every message carried by the frame
    its sender writes: a device's reading ends in the cloud's log, on a session whose key the network
    does not know and under whatever device it claims; and two connections of one device whose sends
    overtake each other lose a reading. */
module Delivery {
  import opened Wrappers
  import opened Text
  import opened Protocol
  import opened Crypto
  import opened GatewayProcessing
  import opened CloudProcessing
  import opened Replay
  import opened Accounting
  import opened System
  import G = GatewayRuns
  import C = CloudRuns
  import Gateway
  import Cloud
  import Channel
  import Device
  import Handshake
  import Pipeline

  function Zeros(n: nat): (data: bytes)
    ensures |data| == n
  {
    seq(n, _ => 0)
  }

  /** Another nonce. */
  function Ones(n: nat): (data: bytes)
    ensures |data| == n && (n > 0 ==> data != Zeros(n))
  {
    var data := seq(n, _ => 1);
    assert n > 0 ==> data[0] != Zeros(n)[0];
    data
  }

  // ----- the frames -----

  /** As `secrets.token_hex(8)` gives it. */
  const SESSION_ID := "0123456789abcdef"

  lemma IdsArePlain()
    ensures |SESSION_ID| == 16 && PlainText(SESSION_ID) && PlainText("cloud")
  {
  }

  function OwnHello(d: string): Message {
    Device.BuildHello(d, [CAP_CHACHA20_POLY1305], Zeros(NONCE_LENGTH), Zeros(TAG_LENGTH))
  }

  lemma HelloIsRead(d: string)
    requires Fits(OwnHello(d))
    ensures Readable(OwnHello(d))
  {
    hide Fits, Readable, ReadMessage, EncodeMessage, Zeros;
    Device.HelloIsWellFormed(d, [CAP_CHACHA20_POLY1305], Zeros(NONCE_LENGTH), Zeros(TAG_LENGTH));
    ReadOne(OwnHello(d));
  }

  function OwnReading(d: string, n: int, plaintext: bytes): Message {
    LegacyReading(d, n, Zeros(NONCE_LENGTH), Zeros(|plaintext| + TAG_LENGTH))
  }

  /** Both readers on the way take the reading's frame: the gateway's and, after it was wrapped, the
      cloud's. */
  predicate Carried(d: string, n: int, plaintext: bytes) {
    Fits(OwnReading(d, n, plaintext)) && |plaintext| <= MAX_PROTECTED_READING
  }

  lemma WrappedIsRead(plaintext: bytes, nonce: bytes)
    requires |nonce| == NONCE_LENGTH && |plaintext| <= MAX_PROTECTED_READING
    ensures Readable(BuildProtectedReading(SESSION_ID, nonce, Zeros(|plaintext| + TAG_LENGTH)))
  {
    hide PlainText, ReadMessage, EncodeMessage, BuildProtectedReading, Zeros;
    IdsArePlain();
    ProtectedFrameSize(SESSION_ID, nonce, Zeros(|plaintext| + TAG_LENGTH), |plaintext|);
  }

  /** One more step of a run. */
  lemma Push(config: Config, steps: seq<Step>, s: State, step: Step) returns (steps': seq<Step>, s': State)
    requires Reaches(config, steps, s) && Enabled(config, s, step)
    ensures May(config, s, step) && Running(config, s)
    ensures Reaches(config, steps', s') && s' == Apply(config, s, step)
  {
    hide Enabled, Apply, Inv, May, Running;
    Defined(config, s, step);
    StepKeepsInv(config, s, step);
    StartInv(config);
    ExecSnoc(config, START, steps, step);
    steps', s' := steps + [step], Apply(config, s, step);
  }

  lemma Defined(config: Config, s: State, step: Step)
    requires Inv(config, s) && Enabled(config, s, step)
    ensures May(config, s, step) && Running(config, s)
  {
    hide May, Running, TableInv, AttemptInv, GatewaysInv, C.Inv, DerivedKeys;
  }

  lemma {:induction false} ExecSnoc(config: Config, s: State, steps: seq<Step>, step: Step)
    requires Inv(config, s) && Valid(config, s, steps) && Enabled(config, Exec(config, s, steps), step)
    ensures May(config, Exec(config, s, steps), step) && Running(config, Exec(config, s, steps))
    ensures Valid(config, s, steps + [step])
    ensures Exec(config, s, steps + [step]) == Apply(config, Exec(config, s, steps), step)
    decreases |steps|
  {
    hide Enabled, Apply, Inv, May, Running;
    Defined(config, Exec(config, s, steps), step);
    if steps == [] {
      assert steps + [step] == [step];
      StepKeepsInv(config, s, step);
    } else {
      Defined(config, s, steps[0]);
      StepKeepsInv(config, s, steps[0]);
      ExecSnoc(config, Apply(config, s, steps[0]), steps[1..], step);
      assert (steps + [step])[1..] == steps[1..] + [step];
    }
  }

  // ----- one process at a time -----

  /** A registered device's own hello is admitted. */
  lemma HelloServed(t: Table, keys: map<string, Key>, p: G.Process, c: nat, d: string, nonce: bytes, tag: bytes)
    requires c in p.conns && p.conns[c].AwaitHello? && G.Registered(keys, p)
    requires d in keys && d != "" && |nonce| == NONCE_LENGTH && tag != []
    requires Slot(keys[d], nonce, HelloClaims(d, [CAP_CHACHA20_POLY1305]), tag) in t
    requires Readable(Device.BuildHello(d, [CAP_CHACHA20_POLY1305], nonce, tag))
    ensures var p' := G.Apply(t, keys, p, G.Hello(c, Ok(Device.BuildHello(d, [CAP_CHACHA20_POLY1305], nonce, tag))));
            && p'.conns == p.conns[c := G.Serving(d)] && p'.accepted == p.accepted
            && p'.desk.guard == p.desk.guard && p'.delivered == p.delivered
  {
    hide Readable, EvaluateHello, ParseHello, HelloClaims, Device.BuildHello, HelloSlot, Gateway.Settle, G.Close,
         Gateway.Detect;
    Device.OwnHelloDecision(t, keys[d], d, [CAP_CHACHA20_POLY1305], nonce, tag);
    G.DetectKeepsGuard(p.desk, d);
  }

  /** Its own reading is accepted and waits to be forwarded. */
  lemma ReadingAccepted(t: Table, keys: map<string, Key>, p: G.Process, c: nat, d: string, n: int, slot: Slot)
    requires c in p.conns && p.conns[c] == G.Serving(d) && d in keys && G.Registered(keys, p)
    requires slot in t && slot.key == keys[d] && slot.aad == LegacyAad(d, n) && |slot.nonce| == NONCE_LENGTH
    requires ParseReading(t[slot]).Ok? && n > Last(p.desk.guard, d)
    requires Readable(LegacyReading(d, n, slot.nonce, slot.ciphertext))
    ensures var p' := G.Apply(t, keys, p, G.Reading(c, Ok(LegacyReading(d, n, slot.nonce, slot.ciphertext))));
            && p'.conns == p.conns[c := G.Forwarding(d, |p.accepted|)]
            && |p'.accepted| == |p.accepted| + 1 && p.accepted <= p'.accepted
            && p'.accepted[|p.accepted|].reading == t[slot] && p'.accepted[|p.accepted|].deviceId == d
            && p'.accepted[|p.accepted|].sequence == n
            && p'.desk.guard == Record(p.desk.guard, d, n) && p'.delivered == p.delivered
  {
    hide Readable, DecryptLegacyMessage, ParseReading, LegacyAad, LegacyReading, LegacySlot, Gateway.Settle, G.Close,
         Bump;
    LegacyRoundTrip(t, slot, d, n);
  }

  /** The cloud's side of an establishment, message by message. */
  lemma Admitted(setup: Handshake.Setup, kem: KemTable, p: C.Process)
    requires setup.Valid() && 0 in p.conns && p.conns[0].AwaitRequest? && C.InFlight(p) && Readable(setup.Request())
    ensures var p' := C.Apply(setup.table, kem, setup.gatewayKeys, p, C.Request(0, Ok(setup.Request()), true));
            p'.conns == p.conns[0 := C.AwaitEncaps(setup.gatewayId)] && p'.desk == p.desk && p'.kept == p.kept
                && p'.stored == p.stored
  {
    hide Readable, Handshake.Setup.Request, Handshake.Setup.Valid, Cloud.OnRequest, RequestSlot, Cloud.Settle,
         C.InFlight;
    Handshake.RequestIsRead(setup);
  }

  lemma SessionLive(setup: Handshake.Setup, p: C.Process)
    requires setup.Valid() && 0 in p.conns && p.conns[0] == C.AwaitEncaps(setup.gatewayId) && C.InFlight(p)
    requires Readable(setup.Encaps(setup.ciphertext))
    ensures var p1 := C.Apply(setup.table, setup.kem, setup.gatewayKeys, p, C.Encaps(0,
        Ok(setup.Encaps(setup.ciphertext))));
            && p1.conns == p.conns[0 := C.Replying(setup.sessionId, setup.Key(), setup.gatewayId)]
            && p1.desk.guard == p.desk.guard && p1.desk.log == p.desk.log && p1.kept == p.kept && p1.stored == p.stored
  {
    hide Readable, Handshake.Setup.Encaps, ParseMlkemEncaps, Decapsulate, Cloud.Settle, C.InFlight, Bump;
    Handshake.EncapsIsRead(setup, setup.ciphertext);
  }

  /** A wrapped reading is kept or dropped as its own claim is fresh or stale. */
  lemma ReadingScreened(t: Table, kem: KemTable, keys: map<string, Key>, p: C.Process, live: C.Conn,
                        nonce: bytes, ciphertext: bytes, a: Arrival)
    requires 0 in p.conns && p.conns[0] == live && live.Live? && live.sessionId != "" && C.InFlight(p)
    requires ProtectedSlot(live.key, live.sessionId, nonce, ciphertext) in t && |nonce| == NONCE_LENGTH
    requires Readable(BuildProtectedReading(live.sessionId, nonce, ciphertext))
    requires Cloud.ReadsAs(t[ProtectedSlot(live.key, live.sessionId, nonce, ciphertext)], a) && a.sequence > 0
    ensures var m := BuildProtectedReading(live.sessionId, nonce, ciphertext);
            var p' := C.Apply(t, kem, keys, p, C.Reading(0, Ok(m)));
            && p'.desk.log == p.desk.log && p'.stored == p.stored
            && p'.desk.guard == Record(p.desk.guard, a.device, a.sequence)
            && p'.conns == p.conns[0 := if Accepts(p.desk.guard, a.device, a.sequence)
                                        then C.Storing(live.sessionId, live.key, live.gatewayId, |p.kept|)
                                        else live]
            && (if Accepts(p.desk.guard, a.device, a.sequence)
                then && |p'.kept| == |p.kept| + 1 && p.kept <= p'.kept && p'.kept[|p.kept|].key == live.key
                     && Ok(p'.kept[|p.kept|].reading)
                     == ParseReading(t[ProtectedSlot(live.key, live.sessionId, nonce, ciphertext)])
                else && p'.kept == p.kept
                     && p'.desk.Tally(MessagesRejected) == p.desk.Tally(MessagesRejected) + 1)
  {
    hide Readable, DecryptProtectedReading, ParseReading, BuildProtectedReading, SessionAad, ReceivedSlot, Get, Bump,
         C.InFlight, Cloud.Settle, Count, Accepts;
    ProtectedRoundTrip(t, live.key, live.sessionId, nonce, ciphertext);
  }

  /** A reading that waits is stored. */
  lemma WaitingStored(t: Table, kem: KemTable, keys: map<string, Key>, p: C.Process, live: C.Conn, index: nat)
    requires live.Live?
    requires p.conns == map[0 := C.Storing(live.sessionId, live.key, live.gatewayId, index)]
    requires C.InFlight(p) && index < |p.kept|
    ensures var p' := C.Apply(t, kem, keys, p, C.Store(0));
            && p'.conns == map[0 := live] && p'.kept == p.kept && p'.stored == p.stored + [index]
            && p'.desk.log == p.desk.log + [p.kept[index].reading] && p'.desk.guard == p.desk.guard
  {
    hide C.InFlight, Bump;
  }

  // ----- the whole deployment -----

  lemma PushGateway(config: Config, steps: seq<Step>, s: State, st: G.Step) returns (steps': seq<Step>, s': State)
    requires Reaches(config, steps, s) && 0 in s.gateways
    requires G.Enabled(s.gateways[0].process, st) && !st.SessionEstablished?
    ensures G.Registered(config.deviceKeys, s.gateways[0].process)
    ensures Reaches(config, steps', s') && s' == OnGateway(config, s, 0, st)
  {
    hide Reaches, Inv, G.Enabled, G.Registered;
    steps', s' := Push(config, steps, s, GatewayStep(0, st));
    hide OnGateway;
  }

  lemma PushCloud(config: Config, steps: seq<Step>, s: State, st: C.Step) returns (steps': seq<Step>, s': State)
    requires Reaches(config, steps, s) && C.Enabled(s.cloud, st)
    ensures C.InFlight(s.cloud)
    ensures Reaches(config, steps', s')
    ensures s' == s.(cloud := C.Apply(s.table, s.kem, config.gatewayKeys, s.cloud, st))
  {
    hide Reaches, Inv, C.Enabled, C.InFlight, C.Apply;
    steps', s' := Push(config, steps, s, CloudStep(st));
  }

  lemma PushSeal(config: Config, steps: seq<Step>, s: State, step: Step) returns (steps': seq<Step>, s': State)
    requires Reaches(config, steps, s) && Seals(step) && Enabled(config, s, step)
    ensures Reaches(config, steps', s') && s' == Seal(config, s, step)
  {
    hide Reaches, Inv, Seal, Enabled;
    steps', s' := Push(config, steps, s, step);
  }

  lemma PushConfirm(config: Config, steps: seq<Step>, s: State, reply: Message) returns (steps': seq<Step>, s': State)
    requires Reaches(config, steps, s) && 0 in s.gateways
    requires |s.attempts| == 1 && s.attempts[0].g == 0 && !s.attempts[0].established
    requires Readable(reply) && ParseMlkemEstablishedReply(reply, s.attempts[0].sessionId).Ok?
    ensures G.Registered(config.deviceKeys, s.gateways[0].process)
    ensures Reaches(config, steps', s') && s' == OnConfirm(config, s, 0)
  {
    hide Reaches, Inv, G.Registered, OnConfirm, Readable, ParseMlkemEstablishedReply;
    steps', s' := Push(config, steps, s, Confirm(0, reply));
  }

  /** Nothing has happened at the cloud or between gateway and cloud. */
  predicate CloudIdle(s: State) { s.cloud == C.START && s.attempts == [] && s.kem == map[] && s.secrets == 0 }

  function HelloTagSlot(config: Config, d: string): Slot
    requires d in config.deviceKeys
  {
    Slot(config.deviceKeys[d], Zeros(NONCE_LENGTH), HelloClaims(d, [CAP_CHACHA20_POLY1305]), Zeros(TAG_LENGTH))
  }

  lemma Nothing(config: Config)
    requires config.Valid()
    ensures Reaches(config, [], START)
  {
    hide Inv;
    StartInv(config);
  }

  /** A gateway starts and a device tags its hello. */
  lemma Tagged(config: Config, d: string, gatewayId: string) returns (steps: seq<Step>, s: State)
    requires config.Valid() && d in config.deviceKeys && gatewayId in config.gatewayKeys
    ensures Reaches(config, steps, s) && CloudIdle(s)
    ensures s.table == map[HelloTagSlot(config, d) := []] && s.gateways == map[0 := Gateway(gatewayId, G.START)]
  {
    hide Inv, Reaches, Readable, Fits, HelloClaims, Running, Zeros;
    steps, s := [], START;
    Nothing(config);
    steps, s := Push(config, steps, s, StartGateway(0, gatewayId));
    assert s == OnStart(START, 0, gatewayId);
    var hello := TagHello(d, [CAP_CHACHA20_POLY1305], Zeros(NONCE_LENGTH), Zeros(TAG_LENGTH));
    assert SealedSlot(config, s, hello) == HelloTagSlot(config, d) && SealedText(config, s, hello) == [];
    steps, s := PushSeal(config, steps, s, hello);
  }

  /** The first gateway process and what its handlers hold. */
  predicate Process(s: State, gatewayId: string, conns: map<nat, G.Conn>, guard: LastSeen) {
    && s.gateways.Keys == {0} && s.gateways[0].gatewayId == gatewayId
    && s.gateways[0].process.conns == conns && s.gateways[0].process.desk.guard == guard
  }

  /** What the first gateway process has accepted, and which of it was sent. */
  function AcceptedOf(s: State): seq<G.Accepted>
    requires 0 in s.gateways
  {
    s.gateways[0].process.accepted
  }

  function DeliveredOf(s: State): seq<nat>
    requires 0 in s.gateways
  {
    s.gateways[0].process.delivered
  }

  /** A connection of the device is accepted and its hello admitted. */
  lemma Admit(config: Config, steps0: seq<Step>, s0: State, c: nat, d: string, gatewayId: string,
              conns: map<nat, G.Conn>, guard: LastSeen)
    returns (steps: seq<Step>, s: State)
    requires Reaches(config, steps0, s0) && Process(s0, gatewayId, conns, guard) && c !in conns
    requires d in config.deviceKeys && d != "" && HelloTagSlot(config, d) in s0.table && Fits(OwnHello(d))
    ensures Reaches(config, steps, s) && Process(s, gatewayId, conns[c := G.Serving(d)], guard)
    ensures s == s0.(gateways := s.gateways) && AcceptedOf(s) == AcceptedOf(s0) && DeliveredOf(s) == DeliveredOf(s0)
  {
    hide Inv, Reaches, Readable, Fits, HelloClaims, Zeros, G.Registered, G.OnHello, G.OnReading;
    steps, s := PushGateway(config, steps0, s0, G.Accept(c));
    var p := s.gateways[0].process;
    assert p.conns == conns[c := G.AwaitHello] && p.desk.guard == guard && p.accepted == AcceptedOf(s0);
    assert p.delivered == DeliveredOf(s0);
    hide G.Apply;
    var m := OwnHello(d);
    HelloIsRead(d);
    steps, s := PushGateway(config, steps, s, G.Hello(c, Ok(m)));
    HelloServed(s.table, config.deviceKeys, p, c, d, Zeros(NONCE_LENGTH), Zeros(TAG_LENGTH));
    assert conns[c := G.AwaitHello][c := G.Serving(d)] == conns[c := G.Serving(d)];
  }

  function ReadingSlot(config: Config, d: string, n: int, plaintext: bytes): Slot
    requires d in config.deviceKeys
  {
    Slot(config.deviceKeys[d], Zeros(NONCE_LENGTH), LegacyAad(d, n), Zeros(|plaintext| + TAG_LENGTH))
  }

  /** The device sends a reading under a sequence, whatever the reading claims. */
  lemma SendOne(config: Config, steps0: seq<Step>, s0: State, d: string, n: int, plaintext: bytes)
    returns (steps: seq<Step>, s: State)
    requires Reaches(config, steps0, s0) && d in config.deviceKeys && ReadingSlot(config, d, n, plaintext) !in s0.table
    ensures Reaches(config, steps, s) && s == s0.(table := s.table, origin := s.origin)
    ensures s.table == s0.table[ReadingSlot(config, d, n, plaintext) := plaintext]
  {
    hide Inv, Reaches, Readable, Fits, LegacyAad, Zeros, Running;
    var send := SendReading(d, n, plaintext, Zeros(NONCE_LENGTH), Zeros(|plaintext| + TAG_LENGTH));
    assert SealedSlot(config, s0, send) == ReadingSlot(config, d, n, plaintext);
    assert SealedText(config, s0, send) == plaintext;
    steps, s := PushSeal(config, steps0, s0, send);
  }

  /** It reaches a connection of the device with a fresh sequence, and waits there. */
  lemma AcceptOne(config: Config, steps0: seq<Step>, s0: State, c: nat, d: string, n: int, plaintext: bytes,
                  gatewayId: string, conns: map<nat, G.Conn>, guard: LastSeen)
    returns (steps: seq<Step>, s: State)
    requires Reaches(config, steps0, s0) && Process(s0, gatewayId, conns, guard)
    requires c in conns && conns[c] == G.Serving(d) && d in config.deviceKeys && n > Last(guard, d)
    requires Fits(OwnReading(d, n, plaintext))
    requires var slot := ReadingSlot(config, d, n, plaintext);
             slot in s0.table && s0.table[slot] == plaintext && ParseReading(plaintext).Ok?
    ensures Reaches(config, steps, s) && s == s0.(gateways := s.gateways)
    ensures Process(s, gatewayId, conns[c := G.Forwarding(d, |AcceptedOf(s0)|)], Record(guard, d, n))
    ensures DeliveredOf(s) == DeliveredOf(s0) && AcceptedOf(s0) <= AcceptedOf(s)
    ensures |AcceptedOf(s)| == |AcceptedOf(s0)| + 1
    ensures var a := AcceptedOf(s)[|AcceptedOf(s0)|]; a.reading == plaintext && a.deviceId == d && a.sequence == n
  {
    hide Inv, Reaches, Readable, Fits, LegacyAad, Zeros, Running, G.Registered, G.Apply, ParseReading, LegacyReading,
         Record;
    var slot := ReadingSlot(config, d, n, plaintext);
    var p := s0.gateways[0].process;
    Pipeline.LegacyIsRead(d, n, slot.nonce, slot.ciphertext);
    steps, s := PushGateway(config, steps0, s0, G.Reading(c, Ok(OwnReading(d, n, plaintext))));
    ReadingAccepted(s.table, config.deviceKeys, p, c, d, n, slot);
  }

  /** The other side of the same deployment, as the handshake sees it. */
  function Setup(config: Config, t: Table, gatewayId: string): Handshake.Setup {
    Handshake.Setup(t, map[Zeros(MLKEM768_CIPHERTEXT_BYTES) := Encapsulated(0)], config.gatewayKeys, gatewayId, "cloud",
                    config.cloudPublicKey, config.pin, SESSION_ID,
                    Zeros(NONCE_LENGTH), Zeros(TAG_LENGTH), Encapsulated(0),
                    Zeros(MLKEM768_CIPHERTEXT_BYTES))
  }

  /** The gateway's longest frame is within the cap, so all of the handshake's are. */
  lemma SetupFits(config: Config, t: Table, gatewayId: string)
    requires Setup(config, t, gatewayId).Valid()
    requires Fits(Channel.EncapsMessage(gatewayId, SESSION_ID, Zeros(MLKEM768_CIPHERTEXT_BYTES)))
    ensures Setup(config, t, gatewayId).FramesFit()
  {
    hide PlainText, Fits, Zeros;
    IdsArePlain();
    Handshake.FramesFitIff(Setup(config, t, gatewayId));
  }

  /** The gateway tags its request. */
  lemma TagOne(config: Config, steps0: seq<Step>, s0: State, gatewayId: string) returns (steps: seq<Step>, s: State)
    requires Reaches(config, steps0, s0) && 0 in s0.gateways && s0.gateways[0].gatewayId == gatewayId
    requires gatewayId in config.gatewayKeys && gatewayId != "" && config.Pinned()
    requires |config.cloudPublicKey| == MLKEM768_PUBLIC_KEY_BYTES
    requires Fits(Channel.EncapsMessage(gatewayId, SESSION_ID, Zeros(MLKEM768_CIPHERTEXT_BYTES)))
    requires forall slot | slot in s0.table :: slot.aad != GatewayClaims(gatewayId)
    ensures Reaches(config, steps, s) && s == s0.(table := s.table, origin := s.origin)
    ensures Setup(config, s.table, gatewayId).Valid() && Setup(config, s.table, gatewayId).FramesFit()
    ensures forall slot | slot in s.table :: slot in s0.table || slot.key == config.gatewayKeys[gatewayId]
  {
    hide Inv, Reaches, Readable, Fits, GatewayClaims, Zeros, Running;
    var tag := TagRequest(0, Zeros(NONCE_LENGTH), Zeros(TAG_LENGTH));
    var slot := Slot(config.gatewayKeys[gatewayId], Zeros(NONCE_LENGTH), GatewayClaims(gatewayId), Zeros(TAG_LENGTH));
    assert SealedSlot(config, s0, tag) == slot && SealedText(config, s0, tag) == [];
    steps, s := PushSeal(config, steps0, s0, tag);
    SetupFits(config, s.table, gatewayId);
  }

  /** The cloud admits the gateway. */
  lemma RequestAdmitted(config: Config, steps0: seq<Step>, s0: State, gatewayId: string)
    returns (steps: seq<Step>, s: State)
    requires Reaches(config, steps0, s0) && CloudIdle(s0)
    requires Setup(config, s0.table, gatewayId).Valid() && Setup(config, s0.table, gatewayId).FramesFit()
    ensures Reaches(config, steps, s) && s == s0.(cloud := s.cloud)
    ensures s.cloud.conns == map[0 := C.AwaitEncaps(gatewayId)] && s.cloud.desk == C.START.desk
         && s.cloud.kept == [] && s.cloud.stored == []
  {
    hide Inv, Reaches, Readable, Fits, GatewayClaims, Zeros, C.InFlight, C.OnRequest, C.OnEncaps, C.OnReading,
         Handshake.Setup.FramesFit;
    var setup := Setup(config, s0.table, gatewayId);
    steps, s := PushCloud(config, steps0, s0, C.Accept(0));
    assert s.cloud.conns == map[0 := C.AwaitRequest] && s.cloud.desk == C.START.desk
         && s.cloud.kept == [] && s.cloud.stored == [];
    var p := s.cloud;
    hide C.Apply;
    Handshake.FramesAreReadable(setup);
    steps, s := PushCloud(config, steps, s, C.Request(0, Ok(setup.Request()), true));
    Admitted(setup, s.kem, p);
  }

  /** And the gateway encapsulates to its pinned key. */
  lemma GatewayAdmitted(config: Config, steps0: seq<Step>, s0: State, gatewayId: string)
    returns (steps: seq<Step>, s: State)
    requires Reaches(config, steps0, s0) && CloudIdle(s0) && 0 in s0.gateways
    requires Setup(config, s0.table, gatewayId).Valid() && Setup(config, s0.table, gatewayId).FramesFit()
    ensures Reaches(config, steps, s) && s.table == s0.table && s.gateways == s0.gateways
    ensures s.cloud.conns == map[0 := C.AwaitEncaps(gatewayId)] && s.cloud.desk == C.START.desk
         && s.cloud.kept == [] && s.cloud.stored == []
    ensures s.kem == Setup(config, s.table, gatewayId).kem
    ensures s.attempts == [Attempt(0, SESSION_ID, config.cloudPublicKey, 0, false)]
  {
    hide Inv, Reaches, Readable, Fits, GatewayClaims, Zeros, ParseMlkemPubkeyReply, VerifyCloudPublicKey, Running,
         Handshake.Setup.FramesFit, Handshake.Setup.PublicKey;
    var setup := Setup(config, s0.table, gatewayId);
    steps, s := RequestAdmitted(config, steps0, s0, gatewayId);
    Handshake.PublicKeyIsRead(setup);
    Handshake.FramesAreReadable(setup);
    var step := Encapsulate(0, SESSION_ID, setup.PublicKey(), setup.ciphertext);
    steps, s := Push(config, steps, s, step);
  }

  /** The cloud registers the session and replies. */
  lemma SessionReplied(config: Config, steps0: seq<Step>, s0: State, gatewayId: string)
    returns (steps: seq<Step>, s: State)
    requires Reaches(config, steps0, s0) && CloudIdle(s0) && 0 in s0.gateways
    requires Setup(config, s0.table, gatewayId).Valid() && Setup(config, s0.table, gatewayId).FramesFit()
    ensures Reaches(config, steps, s) && s.table == s0.table && s.gateways == s0.gateways
    ensures s.attempts == [Attempt(0, SESSION_ID, config.cloudPublicKey, 0, false)]
    ensures s.cloud.conns == map[0 := C.Live(SESSION_ID, s.attempts[0].SessionKey(), gatewayId)]
    ensures s.cloud.desk.guard == map[] && s.cloud.desk.log == [] && s.cloud.kept == [] && s.cloud.stored == []
  {
    hide Inv, Reaches, Readable, Fits, GatewayClaims, Zeros, C.InFlight, C.OnRequest, C.OnEncaps, C.OnReading,
         Handshake.Setup.Valid, Handshake.Setup.FramesFit;
    steps, s := GatewayAdmitted(config, steps0, s0, gatewayId);
    var setup := Setup(config, s0.table, gatewayId);
    var p := s.cloud;
    InFlightOf(config, steps, s);
    Handshake.FramesAreReadable(setup);
    SessionLive(setup, p);
    steps, s := PushCloud(config, steps, s, C.Encaps(0, Ok(setup.Encaps(setup.ciphertext))));
    assert s.cloud.conns == map[0 := C.Replying(SESSION_ID, setup.Key(), gatewayId)];
    steps, s := PushCloud(config, steps, s, C.Reply(0, true));
  }

  lemma ConfirmKeepsProcess(config: Config, s: State, gatewayId: string, conns: map<nat, G.Conn>, guard: LastSeen)
    requires |s.attempts| == 1 && s.attempts[0].g == 0 && Process(s, gatewayId, conns, guard)
    requires G.Registered(config.deviceKeys, s.gateways[0].process)
    ensures var s' := OnConfirm(config, s, 0);
            && Process(s', gatewayId, conns, guard)
            && AcceptedOf(s') == AcceptedOf(s) && DeliveredOf(s') == DeliveredOf(s)
            && s' == s.(gateways := s'.gateways, attempts := [s.attempts[0].(established := true)])
  {
    hide G.Registered;
  }

  /** The session goes live on both sides. */
  lemma Establish(config: Config, steps0: seq<Step>, s0: State, gatewayId: string,
                  conns: map<nat, G.Conn>, guard: LastSeen)
    returns (steps: seq<Step>, s: State)
    requires Reaches(config, steps0, s0) && CloudIdle(s0) && Process(s0, gatewayId, conns, guard)
    requires Setup(config, s0.table, gatewayId).Valid() && Setup(config, s0.table, gatewayId).FramesFit()
    ensures Reaches(config, steps, s) && s.table == s0.table && Process(s, gatewayId, conns, guard)
    ensures AcceptedOf(s) == AcceptedOf(s0) && DeliveredOf(s) == DeliveredOf(s0)
    ensures s.attempts == [Attempt(0, SESSION_ID, config.cloudPublicKey, 0, true)]
    ensures s.cloud.conns == map[0 := C.Live(SESSION_ID, s.attempts[0].SessionKey(), gatewayId)]
    ensures s.cloud.desk.guard == map[] && s.cloud.desk.log == [] && s.cloud.kept == [] && s.cloud.stored == []
  {
    hide Inv, Reaches, Readable, Fits, GatewayClaims, Zeros, ParseMlkemEstablishedReply, Running, G.Registered,
         OnConfirm, Handshake.Setup.FramesFit, Handshake.Setup.Established;
    steps, s := SessionReplied(config, steps0, s0, gatewayId);
    var setup := Setup(config, s0.table, gatewayId);
    Handshake.EstablishedIsRead(setup);
    Handshake.FramesAreReadable(setup);
    var s1 := s;
    steps, s := PushConfirm(config, steps, s, setup.Established());
    ConfirmKeepsProcess(config, s1, gatewayId, conns, guard);
  }

  lemma InFlightOf(config: Config, steps: seq<Step>, s: State)
    requires Reaches(config, steps, s)
    ensures C.InFlight(s.cloud)
  {
    hide Reaches, C.InFlight, TableInv, AttemptInv, GatewaysInv, DerivedKeys;
  }

  function WrapSlot(s: State, plaintext: bytes, nonce: bytes): Slot
    requires |s.attempts| == 1
  {
    ProtectedSlot(s.attempts[0].SessionKey(), s.attempts[0].sessionId, nonce, Zeros(|plaintext| + TAG_LENGTH))
  }

  /** A handler wraps the reading it holds for the session, and its send returns. */
  lemma ForwardOne(config: Config, steps0: seq<Step>, s0: State, c: nat, d: string, index: nat, plaintext: bytes,
                   nonce: bytes, gatewayId: string, conns: map<nat, G.Conn>, guard: LastSeen)
    returns (steps: seq<Step>, s: State)
    requires Reaches(config, steps0, s0) && Process(s0, gatewayId, conns, guard)
    requires c in conns && conns[c] == G.Forwarding(d, index)
    requires index < |AcceptedOf(s0)| && AcceptedOf(s0)[index].reading == plaintext
    requires |s0.attempts| == 1 && s0.attempts[0].g == 0 && s0.attempts[0].established && |nonce| == NONCE_LENGTH
    requires WrapSlot(s0, plaintext, nonce) !in s0.table
    ensures Reaches(config, steps, s) && s == s0.(table := s.table, origin := s.origin, gateways := s.gateways)
    ensures Process(s, gatewayId, conns[c := G.Serving(d)], guard)
    ensures AcceptedOf(s) == AcceptedOf(s0) && DeliveredOf(s) == DeliveredOf(s0) + [index]
    ensures s.table == s0.table[WrapSlot(s0, plaintext, nonce) := plaintext]
  {
    hide Inv, Reaches, Readable, Fits, Zeros, Running, SessionAad, G.Registered;
    var wrap := WrapReading(0, c, 0, 0, nonce, Zeros(|plaintext| + TAG_LENGTH));
    assert SealedSlot(config, s0, wrap) == WrapSlot(s0, plaintext, nonce) && SealedText(config, s0, wrap) == plaintext;
    steps, s := PushSeal(config, steps0, s0, wrap);
    hide Seal, ProtectedSlot;
    steps, s := PushGateway(config, steps, s, G.Forwarded(c));
  }

  /** The cloud reads a wrapped reading with a fresh claim and keeps it. */
  lemma KeepOne(config: Config, steps0: seq<Step>, s0: State, live: C.Conn, a: Arrival, plaintext: bytes, nonce: bytes)
    returns (steps: seq<Step>, s: State)
    requires Reaches(config, steps0, s0) && s0.cloud.conns == map[0 := live]
    requires live.Live? && live.sessionId == SESSION_ID && |plaintext| <= MAX_PROTECTED_READING
    requires |s0.attempts| == 1 && live.key == s0.attempts[0].SessionKey() && live.sessionId == s0.attempts[0].sessionId
    requires Cloud.ReadsAs(plaintext, a) && a.sequence > 0 && Accepts(s0.cloud.desk.guard, a.device, a.sequence)
    requires |nonce| == NONCE_LENGTH
    requires WrapSlot(s0, plaintext, nonce) in s0.table && s0.table[WrapSlot(s0, plaintext, nonce)] == plaintext
    ensures Reaches(config, steps, s) && s == s0.(cloud := s.cloud)
    ensures s.cloud.conns == map[0 := C.Storing(live.sessionId, live.key, live.gatewayId, |s0.cloud.kept|)]
    ensures s.cloud.desk.log == s0.cloud.desk.log && s.cloud.stored == s0.cloud.stored
    ensures s.cloud.desk.guard == Record(s0.cloud.desk.guard, a.device, a.sequence)
    ensures |s.cloud.kept| == |s0.cloud.kept| + 1 && s.cloud.kept[|s0.cloud.kept|].key == live.key
    ensures Ok(s.cloud.kept[|s0.cloud.kept|].reading) == ParseReading(plaintext)
  {
    hide Inv, Reaches, Readable, Fits, Zeros, SessionAad, ParseReading, Cloud.ArrivalOf, C.InFlight, C.Apply,
         BuildProtectedReading, Accepts, Record, Count;
    InFlightOf(config, steps0, s0);
    var ciphertext := Zeros(|plaintext| + TAG_LENGTH);
    WrappedIsRead(plaintext, nonce);
    ReadingScreened(s0.table, s0.kem, config.gatewayKeys, s0.cloud, live, nonce, ciphertext, a);
    var m := BuildProtectedReading(live.sessionId, nonce, ciphertext);
    steps, s := PushCloud(config, steps0, s0, C.Reading(0, Ok(m)));
  }

  /** And stores it. */
  lemma StoreOne(config: Config, steps0: seq<Step>, s0: State, live: C.Conn, a: Arrival, plaintext: bytes, nonce: bytes)
    returns (steps: seq<Step>, s: State)
    requires Reaches(config, steps0, s0) && s0.cloud.conns == map[0 := live]
    requires live.Live? && live.sessionId == SESSION_ID && |plaintext| <= MAX_PROTECTED_READING
    requires |s0.attempts| == 1 && live.key == s0.attempts[0].SessionKey() && live.sessionId == s0.attempts[0].sessionId
    requires Cloud.ReadsAs(plaintext, a) && a.sequence > 0 && Accepts(s0.cloud.desk.guard, a.device, a.sequence)
    requires |nonce| == NONCE_LENGTH
    requires WrapSlot(s0, plaintext, nonce) in s0.table && s0.table[WrapSlot(s0, plaintext, nonce)] == plaintext
    ensures Reaches(config, steps, s) && s == s0.(cloud := s.cloud) && s.cloud.conns == map[0 := live]
    ensures ParseReading(plaintext).Ok? && s.cloud.desk.log == s0.cloud.desk.log + [ParseReading(plaintext).value]
    ensures s.cloud.desk.guard == Record(s0.cloud.desk.guard, a.device, a.sequence)
    ensures s.cloud.stored == s0.cloud.stored + [|s0.cloud.kept|]
    ensures |s.cloud.kept| == |s0.cloud.kept| + 1 && s.cloud.kept[|s0.cloud.kept|].key == live.key
  {
    hide Inv, Reaches, Readable, Fits, WrapSlot, ParseReading, Cloud.ReadsAs, C.InFlight, C.OnReading, C.OnRequest,
         C.OnEncaps, Accepts, Record;
    steps, s := KeepOne(config, steps0, s0, live, a, plaintext, nonce);
    InFlightOf(config, steps, s);
    WaitingStored(s.table, s.kem, config.gatewayKeys, s.cloud, live, |s0.cloud.kept|);
    hide C.Apply;
    steps, s := PushCloud(config, steps, s, C.Store(0));
  }

  /** One with a stale claim is dropped. */
  lemma DropOne(config: Config, steps0: seq<Step>, s0: State, live: C.Conn, a: Arrival, plaintext: bytes, nonce: bytes)
    returns (steps: seq<Step>, s: State)
    requires Reaches(config, steps0, s0) && s0.cloud.conns == map[0 := live]
    requires live.Live? && live.sessionId == SESSION_ID && |plaintext| <= MAX_PROTECTED_READING
    requires |s0.attempts| == 1 && live.key == s0.attempts[0].SessionKey() && live.sessionId == s0.attempts[0].sessionId
    requires Cloud.ReadsAs(plaintext, a) && a.sequence > 0 && !Accepts(s0.cloud.desk.guard, a.device, a.sequence)
    requires |nonce| == NONCE_LENGTH
    requires WrapSlot(s0, plaintext, nonce) in s0.table && s0.table[WrapSlot(s0, plaintext, nonce)] == plaintext
    ensures Reaches(config, steps, s) && s == s0.(cloud := s.cloud) && s.cloud.conns == map[0 := live]
    ensures s.cloud.desk.log == s0.cloud.desk.log
    ensures s.cloud.desk.Tally(MessagesRejected) == s0.cloud.desk.Tally(MessagesRejected) + 1
  {
    hide Inv, Reaches, Readable, Fits, Zeros, SessionAad, ParseReading, Cloud.ArrivalOf, C.InFlight, C.OnReading,
         C.OnRequest, C.OnEncaps, BuildProtectedReading, Accepts, Record, Count;
    InFlightOf(config, steps0, s0);
    var ciphertext := Zeros(|plaintext| + TAG_LENGTH);
    WrappedIsRead(plaintext, nonce);
    ReadingScreened(s0.table, s0.kem, config.gatewayKeys, s0.cloud, live, nonce, ciphertext, a);
    var m := BuildProtectedReading(live.sessionId, nonce, ciphertext);
    steps, s := PushCloud(config, steps0, s0, C.Reading(0, Ok(m)));
  }

  // ----- what the runs show -----

  /** A registered device and a registered gateway that pins this cloud, with ids short enough for
      the hello and for the message that carries the ciphertext. */
  predicate Deployed(config: Config, d: string, gatewayId: string) {
    && Fits(OwnHello(d)) && Fits(Channel.EncapsMessage(gatewayId, SESSION_ID, Zeros(MLKEM768_CIPHERTEXT_BYTES)))
    && config.Valid() && config.Pinned() && |config.cloudPublicKey| == MLKEM768_PUBLIC_KEY_BYTES
    && d in config.deviceKeys && d != "" && gatewayId in config.gatewayKeys && gatewayId != ""
  }

  /** A connection of the device holds an accepted reading. */
  lemma OneAccepted(config: Config, d: string, n: int, plaintext: bytes, gatewayId: string)
    returns (steps: seq<Step>, s: State)
    requires Deployed(config, d, gatewayId) && n > 0 && ParseReading(plaintext).Ok?
    requires Fits(OwnReading(d, n, plaintext))
    ensures Reaches(config, steps, s) && CloudIdle(s)
    ensures Process(s, gatewayId, map[0 := G.Forwarding(d, 0)], Record(map[], d, n))
    ensures |AcceptedOf(s)| == 1
    ensures AcceptedOf(s)[0].deviceId == d && AcceptedOf(s)[0].sequence == n && AcceptedOf(s)[0].reading == plaintext
    ensures forall slot | slot in s.table :: slot.key.Provisioned? && slot.aad != GatewayClaims(gatewayId)
  {
    hide Inv, Reaches, Readable, Fits, Zeros, HelloClaims, LegacyAad, GatewayClaims, ParseReading, Record;
    steps, s := Tagged(config, d, gatewayId);
    steps, s := Admit(config, steps, s, 0, d, gatewayId, map[], map[]);
    FamiliesDisjoint(d, n, d, [CAP_CHACHA20_POLY1305], gatewayId);
    steps, s := SendOne(config, steps, s, d, n, plaintext);
    steps, s := AcceptOne(config, steps, s, 0, d, n, plaintext, gatewayId, map[0 := G.Serving(d)], map[]);
  }

  /** For every deployment whose gateway pins its cloud and every valid reading with a positive
      sequence that a registered device sends under any positive sequence in frames both readers take,
      whatever device and sequence the reading claims, there is a run that ends with exactly that
      reading in the cloud's log, on a session whose key the network does not know. */
  lemma Delivers(config: Config, d: string, n: int, plaintext: bytes, a: Arrival, gatewayId: string)
    returns (steps: seq<Step>, s: State)
    requires Deployed(config, d, gatewayId) && n > 0 && Cloud.ReadsAs(plaintext, a) && a.sequence > 0
    requires Carried(d, n, plaintext)
    ensures Reaches(config, steps, s)
    ensures s.cloud.desk.log == [ParseReading(plaintext).value]
    ensures s.cloud.stored == [0] && |s.cloud.kept| == 1 && !Known(config, s.netSecrets, s.cloud.kept[0].key)
    ensures Wrapped(s, 0) && Source(s, 0).deviceId == d && Source(s, 0).sequence == n
  {
    hide Inv, Reaches, Readable, Fits, Zeros, SessionAad, GatewayClaims, ParseReading, Cloud.ArrivalOf, Known,
         ProtectedSlot, Record, Handshake.Setup.Valid, Handshake.Setup.FramesFit, Running;
    steps, s := OneAccepted(config, d, n, plaintext, gatewayId);
    var conns, guard := map[0 := G.Forwarding(d, 0)], Record(map[], d, n);
    steps, s := TagOne(config, steps, s, gatewayId);
    steps, s := Establish(config, steps, s, gatewayId, conns, guard);
    var live := s.cloud.conns[0];
    ProvisionedOnly(config, s, plaintext, Zeros(NONCE_LENGTH));
    steps, s := ForwardOne(config, steps, s, 0, d, 0, plaintext, Zeros(NONCE_LENGTH), gatewayId, conns, guard);
    steps, s := StoreOne(config, steps, s, live, a, plaintext, Zeros(NONCE_LENGTH));
    KeyIsSecretIff(config, s, 0);
    KeptWasWrapped(config, s, 0);
  }

  /** Nothing compares the envelope with what is inside: a registered device that encrypts a reading
      claiming another device has it stored under that other device. */
  lemma ClaimIsStored(config: Config, d: string, n: int, plaintext: bytes, claimed: Arrival, gatewayId: string)
    returns (steps: seq<Step>, s: State)
    requires Deployed(config, d, gatewayId) && n > 0 && Carried(d, n, plaintext)
    requires Cloud.ReadsAs(plaintext, claimed) && claimed.sequence > 0 && claimed.device != d
    ensures Reaches(config, steps, s) && |s.cloud.desk.log| == |s.cloud.stored| == |s.cloud.kept| == 1
    ensures Cloud.ArrivalOf(s.cloud.desk.log[0]) == claimed
    ensures Wrapped(s, 0) && Source(s, 0).deviceId == d != claimed.device
    ensures Source(s, 0).slot in s.table && ParseReading(s.table[Source(s, 0).slot]) == Ok(s.cloud.desk.log[0])
  {
    hide Reaches, Inv, ParseReading, Known;
    steps, s := Delivers(config, d, n, plaintext, claimed, gatewayId);
    EndToEnd(config, steps, s, 0);
  }

  /** Two connections of one device are served, and it sends two readings. */
  lemma BothServed(config: Config, d: string, first: bytes, second: bytes, gatewayId: string)
    returns (steps: seq<Step>, s: State)
    requires Deployed(config, d, gatewayId)
    ensures Reaches(config, steps, s) && CloudIdle(s)
    ensures Process(s, gatewayId, map[0 := G.Serving(d), 1 := G.Serving(d)], map[])
    ensures AcceptedOf(s) == [] && DeliveredOf(s) == []
    ensures ReadingSlot(config, d, 1, first) in s.table && s.table[ReadingSlot(config, d, 1, first)] == first
    ensures ReadingSlot(config, d, 2, second) in s.table && s.table[ReadingSlot(config, d, 2, second)] == second
    ensures forall slot | slot in s.table :: slot.key.Provisioned? && slot.aad != GatewayClaims(gatewayId)
  {
    hide Inv, Reaches, Readable, Fits, Zeros, HelloClaims, LegacyAad, GatewayClaims, Running;
    steps, s := Tagged(config, d, gatewayId);
    steps, s := Admit(config, steps, s, 0, d, gatewayId, map[], map[]);
    steps, s := Admit(config, steps, s, 1, d, gatewayId, map[0 := G.Serving(d)], map[]);
    assert map[0 := G.Serving(d)][1 := G.Serving(d)] == map[0 := G.Serving(d), 1 := G.Serving(d)];
    FamiliesDisjoint(d, 1, d, [CAP_CHACHA20_POLY1305], gatewayId);
    FamiliesDisjoint(d, 2, d, [CAP_CHACHA20_POLY1305], gatewayId);
    if LegacyAad(d, 1) == LegacyAad(d, 2) {
      LegacyAadInjective(d, 1, d, 2);
    }
    steps, s := SendOne(config, steps, s, d, 1, first);
    steps, s := SendOne(config, steps, s, d, 2, second);
  }

  lemma NextIsNewer(d: string)
    ensures 1 > Last(map[], d) && 2 > Last(Record(map[], d, 1), d)
  {
  }

  /** Each holds an accepted reading. */
  lemma BothAccepted(config: Config, d: string, first: bytes, second: bytes, gatewayId: string)
    returns (steps: seq<Step>, s: State)
    requires Deployed(config, d, gatewayId) && ParseReading(first).Ok? && ParseReading(second).Ok?
    requires Fits(OwnReading(d, 1, first)) && Fits(OwnReading(d, 2, second))
    ensures Reaches(config, steps, s) && CloudIdle(s)
    ensures Process(s, gatewayId, map[0 := G.Forwarding(d, 0), 1 := G.Forwarding(d, 1)],
                    Record(Record(map[], d, 1), d, 2))
    ensures |AcceptedOf(s)| == 2 && DeliveredOf(s) == []
    ensures AcceptedOf(s)[0].deviceId == d && AcceptedOf(s)[0].sequence == 1 && AcceptedOf(s)[0].reading == first
    ensures AcceptedOf(s)[1].deviceId == d && AcceptedOf(s)[1].sequence == 2 && AcceptedOf(s)[1].reading == second
    ensures forall slot | slot in s.table :: slot.key.Provisioned? && slot.aad != GatewayClaims(gatewayId)
  {
    hide Inv, Reaches, Readable, Fits, Zeros, HelloClaims, LegacyAad, GatewayClaims, ParseReading, ReadingSlot, Running,
         Record, Last;
    NextIsNewer(d);
    steps, s := BothServed(config, d, first, second, gatewayId);
    var conns := map[0 := G.Serving(d), 1 := G.Serving(d)];
    steps, s := AcceptOne(config, steps, s, 0, d, 1, first, gatewayId, conns, map[]);
    conns := map[0 := G.Forwarding(d, 0), 1 := G.Serving(d)];
    assert map[0 := G.Serving(d), 1 := G.Serving(d)][0 := G.Forwarding(d, 0)] == conns;
    steps, s := AcceptOne(config, steps, s, 1, d, 2, second, gatewayId, conns, Record(map[], d, 1));
    assert conns[1 := G.Forwarding(d, 1)] == map[0 := G.Forwarding(d, 0), 1 := G.Forwarding(d, 1)];
  }

  /** Check-then-send is not atomic: a run in which the gateway accepts readings 1 and 2 of an honest
      device on two connections and both sends succeed, the second first; the cloud's log ends with
      reading 2 only, and reading 1 was dropped as a replay. */
  lemma OvertakenRun(config: Config, d: string, first: bytes, second: bytes, gatewayId: string)
    returns (steps: seq<Step>, s: State)
    requires Deployed(config, d, gatewayId)
    requires Cloud.ReadsAs(first, Arrival(d, 1)) && Cloud.ReadsAs(second, Arrival(d, 2))
    requires Carried(d, 1, first) && Carried(d, 2, second)
    ensures Reaches(config, steps, s) && 0 in s.gateways
    ensures |AcceptedOf(s)| == 2 && DeliveredOf(s) == [1, 0]
    ensures AcceptedOf(s)[0].deviceId == AcceptedOf(s)[1].deviceId == d
    ensures AcceptedOf(s)[0].sequence == 1 && AcceptedOf(s)[1].sequence == 2
    ensures AcceptedOf(s)[0].reading == first && AcceptedOf(s)[1].reading == second
    ensures s.cloud.desk.log == [ParseReading(second).value] && s.cloud.desk.Tally(MessagesRejected) > 0
  {
    hide Inv, Reaches, Readable, Fits, Zeros, Ones, SessionAad, GatewayClaims, ParseReading, Cloud.ArrivalOf, Count,
         ProtectedSlot, Handshake.Setup.Valid, Handshake.Setup.FramesFit, Running;
    steps, s := BothAccepted(config, d, first, second, gatewayId);
    var conns := map[0 := G.Forwarding(d, 0), 1 := G.Forwarding(d, 1)];
    var guard := Record(Record(map[], d, 1), d, 2);
    steps, s := TagOne(config, steps, s, gatewayId);
    steps, s := Establish(config, steps, s, gatewayId, conns, guard);
    var live := s.cloud.conns[0];
    ProvisionedOnly(config, s, second, Zeros(NONCE_LENGTH));
    ProvisionedOnly(config, s, first, Ones(NONCE_LENGTH));
    OtherNonceOtherSlot(s, second, first);
    steps, s := ForwardOne(config, steps, s, 1, d, 1, second, Zeros(NONCE_LENGTH), gatewayId, conns, guard);
    conns := conns[1 := G.Serving(d)];
    steps, s := ForwardOne(config, steps, s, 0, d, 0, first, Ones(NONCE_LENGTH), gatewayId, conns, guard);
    steps, s := StoreOne(config, steps, s, live, Arrival(d, 2), second, Zeros(NONCE_LENGTH));
    steps, s := DropOne(config, steps, s, live, Arrival(d, 1), first, Ones(NONCE_LENGTH));
  }

  /** Over every run the cloud's guard drops nothing exactly when what reaches it is positive and
      increasing for each device. */
  lemma NothingDroppedIff(config: Config, steps: seq<Step>, s: State)
    requires Reaches(config, steps, s)
    ensures C.Arrivals(s.cloud.kept) == s.cloud.presented <==> Pipeline.InOrder(s.cloud.presented)
  {
    hide Reaches, Inv, C.InFlight, C.StoredOnce, C.RegistryInv, Pipeline.InOrder, Filter, Final;
    CloudProcessInv(config, s);
    Pipeline.TransparentIff(s.cloud.presented);
  }

  lemma OtherNonceOtherSlot(s: State, one: bytes, other: bytes)
    requires |s.attempts| == 1
    ensures WrapSlot(s, one, Zeros(NONCE_LENGTH)) != WrapSlot(s, other, Ones(NONCE_LENGTH))
  {
    hide Zeros, Ones;
  }

  lemma ProvisionedOnly(config: Config, s: State, plaintext: bytes, nonce: bytes)
    requires |s.attempts| == 1 && forall slot | slot in s.table :: slot.key.Provisioned?
    ensures WrapSlot(s, plaintext, nonce) !in s.table
  {
  }
}
