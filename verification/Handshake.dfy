/** One gateway attempt and one cloud handler over an honest FIFO transport, in every schedule, with
    the cloud's other handlers in between; and the same when the ciphertext is replaced in transit. */
module Handshake {
  import opened Wrappers
  import opened Text
  import opened Json
  import opened Protocol
  import opened Crypto
  import opened GatewayProcessing
  import opened CloudProcessing
  import Base64
  import Channel
  import C = Cloud

  /** What both sides are provisioned with, and the fresh values of the attempt. */
  datatype Setup = Setup(
    table: Table,
    kem: KemTable,
    gatewayKeys: map<string, Key>,
    gatewayId: string,
    cloudId: string,
    publicKey: bytes,
    pin: Option<Digest>,
    sessionId: string,
    authNonce: bytes,
    authTag: bytes,
    secret: Secret,
    ciphertext: bytes)
  {
    /** A registered gateway that pins this cloud's key, tagged its request and encapsulated. */
    ghost predicate Valid() {
      && gatewayId != "" && cloudId != "" && sessionId != ""
      && |publicKey| == MLKEM768_PUBLIC_KEY_BYTES && pin == Some(Sha256(publicKey))
      && gatewayId in gatewayKeys && |authNonce| == NONCE_LENGTH && authTag != []
      && Slot(gatewayKeys[gatewayId], authNonce, GatewayClaims(gatewayId), authTag) in table
      && |ciphertext| == MLKEM768_CIPHERTEXT_BYTES && Decapsulate(kem, ciphertext) == secret
    }

    function Request(): Message { Channel.RequestMessage(gatewayId, authNonce, authTag) }

    function Encaps(carried: bytes): Message { Channel.EncapsMessage(gatewayId, sessionId, carried) }

    function PublicKey(): Message {
      [Member("type", Str(MSG_MLKEM_PUBKEY)), Member("cloud_id", Str(cloudId)),
       Member("public_key", Str(Base64.Encode(publicKey)))]
    }

    function Established(): Message {
      [Member("type", Str(MSG_MLKEM_ESTABLISHED)), Member("session_id", Str(sessionId)), Member("status", Str("ok"))]
    }

    function Key(): Crypto.Key { DeriveSessionKey(secret) }

    /** Every frame of the exchange is within the readers' cap. */
    predicate FramesFit() {
      Fits(Request()) && Fits(PublicKey()) && Fits(Encaps(ciphertext)) && Fits(Established())
    }
  }

  datatype GatewayPhase = Dialling | AwaitKey | AwaitReply | Up | Down

  datatype CloudPhase = AwaitRequest | AwaitEncaps(gatewayId: string) | Registered | Serving | Ended

  /** `fromGateway` and `fromCloud` are all messages sent; the counts say how many were read. */
  datatype State = State(
    gateway: GatewayPhase,
    cloud: CloudPhase,
    fromGateway: seq<Message>,
    readByCloud: nat,
    fromCloud: seq<Message>,
    readByGateway: nat,
    registry: map<string, C.Session>,
    registered: Option<(string, C.Session)>,
    carried: bytes)

  function Start(setup: Setup, registry: map<string, C.Session>): State {
    State(Dialling, AwaitRequest, [], 0, [], 0, registry, None, setup.ciphertext)
  }

  datatype Step =
    | GatewayStep
    | GatewayFails
    | CloudStep
    | CloudFails
    | OtherHandlers(registry: map<string, C.Session>)
    | Substitute(ciphertext: bytes)

  predicate Enabled(setup: Setup, s: State, step: Step) {
    match step
    case GatewayStep =>
      s.gateway.Dialling? || ((s.gateway.AwaitKey? || s.gateway.AwaitReply?) && s.readByGateway < |s.fromCloud|)
    case GatewayFails => true
    case CloudStep =>
      s.cloud.Registered? || ((s.cloud.AwaitRequest? || s.cloud.AwaitEncaps?) && s.readByCloud < |s.fromGateway|)
    case CloudFails => true
    case OtherHandlers(registry) => // handlers of other sessions never touch this id
      (setup.sessionId in registry <==> setup.sessionId in s.registry)
      && (setup.sessionId in registry ==> registry[setup.sessionId] == s.registry[setup.sessionId])
    case Substitute(ciphertext) =>
      |s.fromGateway| == 2 && s.readByCloud < 2 && |ciphertext| == MLKEM768_CIPHERTEXT_BYTES
  }

  function OnGateway(setup: Setup, s: State): State
    requires Enabled(setup, s, GatewayStep)
  {
    if s.gateway.Dialling? then s.(gateway := AwaitKey, fromGateway := s.fromGateway + [setup.Request()])
    else
      var s' := s.(readByGateway := s.readByGateway + 1);
      match ReadMessage(EncodeMessage(s.fromCloud[s.readByGateway])).0
      case Err(_) => s'.(gateway := Down)
      case Ok(m) =>
        if s.gateway.AwaitKey? then
          match ParseMlkemPubkeyReply(m)
          case Err(_) => s'.(gateway := Down)
          case Ok(raw) =>
            if VerifyCloudPublicKey(raw, setup.pin).Err? then s'.(gateway := Down)
            else s'.(gateway := AwaitReply, fromGateway := s.fromGateway + [setup.Encaps(setup.ciphertext)])
        else s'.(gateway := if ParseMlkemEstablishedReply(m, setup.sessionId).Ok? then Up else Down)
  }

  function OnCloud(setup: Setup, s: State): State
    requires Enabled(setup, s, CloudStep)
  {
    if s.cloud.Registered? then s.(cloud := Serving, fromCloud := s.fromCloud + [setup.Established()])
    else
      var s' := s.(readByCloud := s.readByCloud + 1);
      match (s.cloud, ReadMessage(EncodeMessage(s.fromGateway[s.readByCloud])).0)
      case (_, Err(_)) => s'.(cloud := Ended)
      case (AwaitEncaps(gatewayId), Ok(m)) =>
        (match C.OnEncaps(setup.kem, C.Desk(s.registry, map[], [], map[]), m, gatewayId)
         case (_, Err(_)) => s'.(cloud := Ended)
         case (d, Ok((sessionId, key))) =>
           s'.(cloud := Registered, registry := d.registry, registered := Some((sessionId, C.Session(key, gatewayId)))))
      case (_, Ok(m)) =>
        match C.OnRequest(setup.table, setup.gatewayKeys, m)
        case Err(_) => s'.(cloud := Ended)
        case Ok(gatewayId) => s'.(cloud := AwaitEncaps(gatewayId), fromCloud := s.fromCloud + [setup.PublicKey()])
  }

  /** A handler that serves evicts what it registered; one whose reply fails leaves it. */
  function OnCloudFails(s: State): State {
    s.(cloud := Ended,
       registry := if s.cloud.Serving? && s.registered.Some? then s.registry - {s.registered.value.0} else s.registry)
  }

  function Apply(setup: Setup, s: State, step: Step): State
    requires Enabled(setup, s, step)
  {
    match step
    case GatewayStep => OnGateway(setup, s)
    case GatewayFails => s.(gateway := if s.gateway.Up? then Up else Down)
    case CloudStep => OnCloud(setup, s)
    case CloudFails => OnCloudFails(s)
    case OtherHandlers(registry) => s.(registry := registry)
    case Substitute(ciphertext) => s.(fromGateway := [s.fromGateway[0], setup.Encaps(ciphertext)],
        carried := ciphertext)
  }

  // ----- each message is read as it was meant -----

  lemma RequestIsRead(setup: Setup)
    requires setup.Valid()
    ensures C.OnRequest(setup.table, setup.gatewayKeys, setup.Request()) == Ok(setup.gatewayId)
  {
    Channel.RequestIsRead(setup.table, setup.gatewayKeys, setup.gatewayId, setup.authNonce, setup.authTag);
  }

  lemma PublicKeyIsRead(setup: Setup)
    requires setup.Valid()
    ensures ParseMlkemPubkeyReply(setup.PublicKey()) == Ok(setup.publicKey)
    ensures VerifyCloudPublicKey(setup.publicKey, setup.pin).Ok?
  {
    hide GatewayClaims, Base64.Encode, Base64.Decode;
    var m := setup.PublicKey();
    GetAt(m, 0);
    GetAt(m, 1);
    GetAt(m, 2);
    Base64.RoundTrip(setup.publicKey);
    Base64.NotEmpty(setup.publicKey);
    hide Get;
  }

  lemma EncapsIsRead(setup: Setup, carried: bytes)
    requires setup.Valid() && |carried| == MLKEM768_CIPHERTEXT_BYTES
    ensures ParseMlkemEncaps(setup.Encaps(carried)) == Ok(Encaps(setup.sessionId, carried))
  {
    Channel.EncapsIsRead(setup.gatewayId, setup.sessionId, carried);
  }

  lemma EstablishedIsRead(setup: Setup)
    requires setup.Valid()
    ensures ParseMlkemEstablishedReply(setup.Established(), setup.sessionId).Ok?
  {
    hide GatewayClaims;
    var m := setup.Established();
    GetAt(m, 0);
    GetAt(m, 1);
    hide Get;
  }

  /** And each is well-formed, so its frame is read back exactly when it is within the cap. */
  lemma FramesAreRead(setup: Setup, carried: bytes)
    ensures ReadMessage(EncodeMessage(setup.Request())).0
         == if Fits(setup.Request()) then Ok(setup.Request()) else Err(ProtocolError)
    ensures ReadMessage(EncodeMessage(setup.PublicKey())).0
         == if Fits(setup.PublicKey()) then Ok(setup.PublicKey()) else Err(ProtocolError)
    ensures ReadMessage(EncodeMessage(setup.Encaps(carried))).0
         == if Fits(setup.Encaps(carried)) then Ok(setup.Encaps(carried)) else Err(ProtocolError)
    ensures ReadMessage(EncodeMessage(setup.Established())).0
         == if Fits(setup.Established()) then Ok(setup.Established()) else Err(ProtocolError)
  {
    hide ReadMessage, EncodeMessage, Fits, Base64.Encode;
    ReadOne(setup.Request());
    ReadOne(setup.PublicKey());
    ReadOne(setup.Encaps(carried));
    ReadOne(setup.Established());
  }

  lemma FramesAreReadable(setup: Setup)
    requires setup.FramesFit()
    ensures Readable(setup.Request()) && Readable(setup.PublicKey())
    ensures Readable(setup.Encaps(setup.ciphertext)) && Readable(setup.Established())
  {
    hide Readable, Fits, Base64.Encode, EncodeMessage, ReadMessage;
    ReadOne(setup.Request());
    ReadOne(setup.PublicKey());
    ReadOne(setup.Encaps(setup.ciphertext));
    ReadOne(setup.Established());
  }

  lemma HandshakeFieldsArePlain()
    ensures PlainText("gateway_id") && PlainText("cloud_id") && PlainText("public_key") && PlainText("status")
    ensures PlainText("auth_nonce") && PlainText("auth_tag") && PlainText("ok")
    ensures PlainText(MSG_MLKEM_REQUEST_PUBKEY) && PlainText(MSG_MLKEM_PUBKEY)
    ensures PlainText(MSG_MLKEM_ENCAPS) && PlainText(MSG_MLKEM_ESTABLISHED)
  {
  }

  /** The printed member that carries the gateway's id. */
  function GatewayIdText(setup: Setup): string { PrintMember(Member("gateway_id", Str(setup.gatewayId))) }

  lemma GatewayFrameSizes(setup: Setup)
    requires |setup.authNonce| == NONCE_LENGTH && |setup.authTag| == TAG_LENGTH
    requires |setup.ciphertext| == MLKEM768_CIPHERTEXT_BYTES && |setup.sessionId| == 16 && PlainText(setup.sessionId)
    ensures |EncodeMessage(setup.Request())| == 103 + |GatewayIdText(setup)|
    ensures |EncodeMessage(setup.Encaps(setup.ciphertext))| == 1525 + |GatewayIdText(setup)|
  {
    hide Print, PrintMember, PlainText, Base64.Encode, EncodeMessage;
    var request, encaps := setup.Request(), setup.Encaps(setup.ciphertext);
    FieldsArePlain();
    HandshakeFieldsArePlain();
    Base64IsPlain(setup.authNonce);
    Base64IsPlain(setup.authTag);
    Base64IsPlain(setup.ciphertext);
    PlainMember("type", MSG_MLKEM_REQUEST_PUBKEY);
    PlainMember("auth_nonce", Base64.Encode(setup.authNonce));
    PlainMember("auth_tag", Base64.Encode(setup.authTag));
    FourMembers(request);
    FrameLength(request);
    PlainMember("type", MSG_MLKEM_ENCAPS);
    PlainMember("session_id", setup.sessionId);
    PlainMember("ciphertext", Base64.Encode(setup.ciphertext));
    FourMembers(encaps);
    FrameLength(encaps);
  }

  lemma CloudFrameSizes(setup: Setup)
    requires |setup.publicKey| == MLKEM768_PUBLIC_KEY_BYTES && PlainText(setup.cloudId)
    requires |setup.sessionId| == 16 && PlainText(setup.sessionId)
    ensures |EncodeMessage(setup.PublicKey())| == 1634 + |setup.cloudId|
    ensures |EncodeMessage(setup.Established())| == 75
  {
    hide Print, PrintMember, PlainText, Base64.Encode, EncodeMessage;
    var key, established := setup.PublicKey(), setup.Established();
    FieldsArePlain();
    HandshakeFieldsArePlain();
    Base64IsPlain(setup.publicKey);
    PlainMember("type", MSG_MLKEM_PUBKEY);
    PlainMember("cloud_id", setup.cloudId);
    PlainMember("public_key", Base64.Encode(setup.publicKey));
    ThreeMembers(key);
    FrameLength(key);
    PlainMember("type", MSG_MLKEM_ESTABLISHED);
    PlainMember("session_id", setup.sessionId);
    PlainMember("status", "ok");
    ThreeMembers(established);
    FrameLength(established);
  }

  /** Only an id can make a frame too long: the gateway's in the message that carries the ciphertext,
      the cloud's in the one that carries the public key. For plain ids the limits are 63996 and
      63902 characters. */
  lemma FramesFitIff(setup: Setup)
    requires setup.Valid() && |setup.authTag| == TAG_LENGTH && PlainText(setup.cloudId)
    requires |setup.sessionId| == 16 && PlainText(setup.sessionId)
    ensures setup.FramesFit() <==> Fits(setup.Encaps(setup.ciphertext)) && |setup.cloudId| <= 63902
    ensures PlainText(setup.gatewayId) ==>
              (setup.FramesFit() <==> |setup.gatewayId| <= 63996 && |setup.cloudId| <= 63902)
  {
    hide PrintMember, PlainText, EncodeMessage;
    GatewayFrameSizes(setup);
    CloudFrameSizes(setup);
    HandshakeFieldsArePlain();
    if PlainText(setup.gatewayId) {
      PlainMember("gateway_id", setup.gatewayId);
    }
  }

  // ----- what every step keeps -----

  function CarriedKey(setup: Setup, s: State): Crypto.Key {
    DeriveSessionKey(Decapsulate(setup.kem, s.carried))
  }

  ghost predicate GatewayInv(setup: Setup, s: State) {
    && (|s.fromGateway| < 2 ==> s.carried == setup.ciphertext)
    && |s.fromGateway| <= 2 && |s.carried| == MLKEM768_CIPHERTEXT_BYTES
    && s.fromGateway == [setup.Request(), setup.Encaps(s.carried)][..|s.fromGateway|]
    && (s.gateway.Dialling? ==> |s.fromGateway| == 0 && s.readByGateway == 0)
    && (s.gateway.AwaitKey? ==> |s.fromGateway| == 1 && s.readByGateway == 0)
    && (s.gateway.AwaitReply? ==> |s.fromGateway| == 2 && s.readByGateway == 1 && Fits(setup.PublicKey()))
    && (s.gateway.Up? ==> s.readByGateway == 2 && Fits(setup.PublicKey()) && Fits(setup.Established()))
    && s.readByGateway <= |s.fromCloud|
  }

  ghost predicate CloudInv(setup: Setup, s: State) {
    && |s.fromCloud| <= 2
    && s.fromCloud == [setup.PublicKey(), setup.Established()][..|s.fromCloud|]
    && (s.cloud.AwaitRequest? ==> s.readByCloud == 0 && |s.fromCloud| == 0)
    && (s.cloud.AwaitEncaps? ==>
          s.cloud.gatewayId == setup.gatewayId && s.readByCloud == 1 && |s.fromCloud| == 1 && Fits(setup.Request()))
    && (s.cloud.Registered? ==> s.readByCloud == 2 && |s.fromCloud| == 1 && s.registered.Some?)
    && (s.cloud.Serving? ==> s.readByCloud == 2 && |s.fromCloud| == 2)
    && (|s.fromCloud| == 2 ==> s.registered.Some?)
    && (s.registered.Some? ==>
          && s.readByCloud == 2 && Fits(setup.Request()) && Fits(setup.Encaps(s.carried))
          && s.registered.value == (setup.sessionId, C.Session(CarriedKey(setup, s), setup.gatewayId)))
    && (s.cloud.Registered? || s.cloud.Serving? ==>
          && setup.sessionId in s.registry
          && s.registry[setup.sessionId] == C.Session(CarriedKey(setup, s), setup.gatewayId))
    && s.readByCloud <= |s.fromGateway|
  }

  lemma GatewayStepKeepsInv(setup: Setup, s: State)
    requires setup.Valid() && GatewayInv(setup, s) && CloudInv(setup, s) && Enabled(setup, s, GatewayStep)
    ensures var s' := OnGateway(setup, s);
            GatewayInv(setup, s') && CloudInv(setup, s') && s'.carried == s.carried
            && (setup.FramesFit() ==> !s'.gateway.Down?)
  {
    hide ParseMlkemPubkeyReply, ParseMlkemEstablishedReply, VerifyCloudPublicKey, Channel.RequestMessage,
         Channel.EncapsMessage, Decapsulate, ReadMessage, EncodeMessage, Fits, Setup.Valid, Setup.Request, Setup.Encaps,
         Setup.PublicKey, Setup.Established;
    FramesAreRead(setup, s.carried);
    PublicKeyIsRead(setup);
    EstablishedIsRead(setup);
  }

  lemma CloudStepKeepsInv(setup: Setup, s: State)
    requires setup.Valid() && GatewayInv(setup, s) && CloudInv(setup, s) && Enabled(setup, s, CloudStep)
    ensures var s' := OnCloud(setup, s);
            GatewayInv(setup, s') && CloudInv(setup, s') && s'.carried == s.carried
            && (setup.FramesFit() && s.carried == setup.ciphertext ==> !s'.cloud.Ended?)
  {
    hide C.OnRequest, ParseMlkemEncaps, Channel.RequestMessage, Channel.EncapsMessage, Decapsulate, ReadMessage,
         EncodeMessage, Fits, Setup.Valid, Setup.Request, Setup.Encaps, Setup.PublicKey, Setup.Established;
    FramesAreRead(setup, s.carried);
    RequestIsRead(setup);
    EncapsIsRead(setup, s.carried);
  }

  ghost predicate Inv(setup: Setup, s: State) {
    setup.Valid() && GatewayInv(setup, s) && CloudInv(setup, s)
  }

  lemma StepKeepsInv(setup: Setup, s: State, step: Step)
    requires Inv(setup, s) && Enabled(setup, s, step)
    ensures Inv(setup, Apply(setup, s, step))
    ensures !step.Substitute? ==> Apply(setup, s, step).carried == s.carried
  {
    hide OnGateway, OnCloud, Channel.RequestMessage, Channel.EncapsMessage, Decapsulate;
    match step
    case GatewayStep => GatewayStepKeepsInv(setup, s);
    case CloudStep => CloudStepKeepsInv(setup, s);
    case _ =>
  }

  /** A handler that ends while it serves takes its own id out of the registry and nothing else; one
      that could not confirm its session leaves it there. */
  lemma EndingEvicts(setup: Setup, s: State)
    requires Inv(setup, s)
    ensures s.cloud.Serving? ==> OnCloudFails(s).registry == s.registry - {setup.sessionId}
    ensures s.cloud.Registered? ==> OnCloudFails(s).registry == s.registry && setup.sessionId in s.registry
  {
    hide Setup.Valid, Fits, Decapsulate;
  }

  // ----- runs -----

  predicate Valid(setup: Setup, s: State, steps: seq<Step>)
    decreases |steps|
  {
    steps == [] || (Enabled(setup, s, steps[0]) && Valid(setup, Apply(setup, s, steps[0]), steps[1..]))
  }

  function Exec(setup: Setup, s: State, steps: seq<Step>): State
    requires Valid(setup, s, steps)
    decreases |steps|
  {
    if steps == [] then s else Exec(setup, Apply(setup, s, steps[0]), steps[1..])
  }

  predicate Untouched(steps: seq<Step>) {
    forall i | 0 <= i < |steps| :: !steps[i].Substitute?
  }

  lemma {:induction false} ExecKeepsInv(setup: Setup, s: State, steps: seq<Step>)
    requires Inv(setup, s) && Valid(setup, s, steps)
    ensures Inv(setup, Exec(setup, s, steps))
    ensures Untouched(steps) ==> Exec(setup, s, steps).carried == s.carried
    decreases |steps|
  {
    hide Inv, Apply, Enabled;
    if steps != [] {
      StepKeepsInv(setup, s, steps[0]);
      ExecKeepsInv(setup, Apply(setup, s, steps[0]), steps[1..]);
    }
  }

  /** Agreement on an honest FIFO transport: in every schedule, when the gateway is established the
      cloud has registered the same session id, with the same key, under the authenticated gateway
      id; and while its handler serves, the registry says so. */
  lemma Agreement(setup: Setup, registry: map<string, C.Session>, steps: seq<Step>)
    requires setup.Valid() && Valid(setup, Start(setup, registry), steps) && Untouched(steps)
    ensures var s := Exec(setup, Start(setup, registry), steps);
            var session := C.Session(setup.Key(), setup.gatewayId);
            && (s.gateway.Up? ==> s.registered == Some((setup.sessionId, session)))
            && (s.gateway.Up? ==> s.cloud.Serving? || s.cloud.Ended?)
            && (s.cloud.Serving? ==> setup.sessionId in s.registry && s.registry[setup.sessionId] == session)
            && (s.gateway.Up? ==> setup.FramesFit())
  {
    hide Valid, Exec, Channel.RequestMessage, Channel.EncapsMessage, Decapsulate, EncodeMessage;
    ExecKeepsInv(setup, Start(setup, registry), steps);
  }

  /** The two sides do get there when every frame is within the cap. */
  lemma Completes(setup: Setup, registry: map<string, C.Session>) returns (steps: seq<Step>)
    requires setup.Valid() && setup.FramesFit()
    ensures Untouched(steps) && Valid(setup, Start(setup, registry), steps)
    ensures var s := Exec(setup, Start(setup, registry), steps); s.gateway.Up? && s.cloud.Serving?
  {
    hide Inv, OnGateway, OnCloud, Setup.Valid, Setup.FramesFit;
    steps := [GatewayStep, CloudStep, GatewayStep, CloudStep, CloudStep, GatewayStep];
    var s0 := Start(setup, registry);
    assert Inv(setup, s0) by { StartInv(setup, registry); }
    var s1 := GatewayGoes(setup, s0);
    var s2 := CloudGoes(setup, s1);
    var s3 := GatewayGoes(setup, s2);
    var s4 := CloudGoes(setup, s3);
    var s5 := CloudGoes(setup, s4);
    var s6 := GatewayGoes(setup, s5);
    RunsOn(setup, s5, GatewayStep, [], s6);
    RunsOn(setup, s4, CloudStep, [GatewayStep], s6);
    RunsOn(setup, s3, CloudStep, [CloudStep, GatewayStep], s6);
    RunsOn(setup, s2, GatewayStep, [CloudStep, CloudStep, GatewayStep], s6);
    RunsOn(setup, s1, CloudStep, [GatewayStep, CloudStep, CloudStep, GatewayStep], s6);
    RunsOn(setup, s0, GatewayStep, steps[1..], s6);
  }

  /** A schedule that establishes both sides. */
  ghost predicate Establishes(setup: Setup, registry: map<string, C.Session>, steps: seq<Step>) {
    && Untouched(steps) && Valid(setup, Start(setup, registry), steps)
    && var s := Exec(setup, Start(setup, registry), steps); s.gateway.Up? && s.cloud.Serving?
  }

  /** On an untouched transport the two sides can establish exactly when every frame is within the
      cap of 65536 bytes: an id that makes one longer silences the gateway for good. */
  lemma EstablishesIff(setup: Setup, registry: map<string, C.Session>)
    requires setup.Valid()
    ensures (exists steps :: Establishes(setup, registry, steps)) <==> setup.FramesFit()
  {
    hide Valid, Exec, Untouched, Setup.Valid, Setup.FramesFit;
    if setup.FramesFit() {
      var steps := Completes(setup, registry);
      assert Establishes(setup, registry, steps);
    }
    forall steps | Establishes(setup, registry, steps)
      ensures setup.FramesFit()
    {
      Agreement(setup, registry, steps);
    }
  }

  lemma StartInv(setup: Setup, registry: map<string, C.Session>)
    requires setup.Valid()
    ensures Inv(setup, Start(setup, registry))
  {
  }

  lemma RunsOn(setup: Setup, s: State, step: Step, rest: seq<Step>, end: State)
    requires Enabled(setup, s, step)
    requires Valid(setup, Apply(setup, s, step), rest) && Exec(setup, Apply(setup, s, step), rest) == end
    ensures Valid(setup, s, [step] + rest) && Exec(setup, s, [step] + rest) == end
  {
    assert ([step] + rest)[1..] == rest;
  }

  /** The gateway's next phase, when its message is there. */
  lemma GatewayGoes(setup: Setup, s: State) returns (s': State)
    requires Inv(setup, s) && Enabled(setup, s, GatewayStep) && setup.FramesFit()
    ensures s' == Apply(setup, s, GatewayStep) && Inv(setup, s') && s'.cloud == s.cloud && s'.carried == s.carried
    ensures s'.gateway == if s.gateway.Dialling? then AwaitKey else if s.gateway.AwaitKey? then AwaitReply else Up
    ensures s'.fromCloud == s.fromCloud && s'.readByCloud == s.readByCloud
    ensures |s'.fromGateway| == |s.fromGateway| + (if s.gateway.AwaitReply? then 0 else 1)
    ensures s'.readByGateway == s.readByGateway + (if s.gateway.Dialling? then 0 else 1)
  {
    hide ParseMlkemPubkeyReply, ParseMlkemEstablishedReply, VerifyCloudPublicKey, Channel.RequestMessage,
         Channel.EncapsMessage, Decapsulate, ReadMessage, EncodeMessage, Fits, Setup.Valid, Setup.Request,
         Setup.Encaps, Setup.PublicKey, Setup.Established;
    GatewayStepKeepsInv(setup, s);
    s' := OnGateway(setup, s);
  }

  lemma CloudGoes(setup: Setup, s: State) returns (s': State)
    requires Inv(setup, s) && Enabled(setup, s, CloudStep) && setup.FramesFit() && s.carried == setup.ciphertext
    ensures s' == Apply(setup, s, CloudStep) && Inv(setup, s') && s'.gateway == s.gateway && s'.carried == s.carried
    ensures s'.cloud == if s.cloud.AwaitRequest? then AwaitEncaps(setup.gatewayId)
                        else if s.cloud.AwaitEncaps? then Registered
                        else Serving
    ensures s'.fromGateway == s.fromGateway && s'.readByGateway == s.readByGateway
    ensures |s'.fromCloud| == |s.fromCloud| + (if s.cloud.AwaitEncaps? then 0 else 1)
    ensures s'.readByCloud == s.readByCloud + (if s.cloud.Registered? then 0 else 1)
  {
    hide C.OnRequest, ParseMlkemEncaps, Channel.RequestMessage, Channel.EncapsMessage, Decapsulate, ReadMessage,
         EncodeMessage, Fits, Setup.Valid, Setup.Request, Setup.Encaps, Setup.PublicKey, Setup.Established;
    CloudStepKeepsInv(setup, s);
    s' := OnCloud(setup, s);
  }

  /** When the ciphertext may be replaced in transit, the gateway can still become established; the
      cloud's key is then the gateway's exactly if what arrived decapsulates to the same secret, and
      a reading the gateway wraps is accepted exactly then. */
  lemma SubstitutionSilences(setup: Setup, registry: map<string, C.Session>, steps: seq<Step>,
                             t: Table, nonce: bytes, ciphertext: bytes)
    requires setup.Valid() && Valid(setup, Start(setup, registry), steps)
    requires var slot := ProtectedSlot(setup.Key(), setup.sessionId, nonce, ciphertext);
             && slot in t && |nonce| == NONCE_LENGTH && ParseReading(t[slot]).Ok?
             && (forall other | other in t && other.nonce == nonce && other.ciphertext == ciphertext :: other == slot)
    ensures var s := Exec(setup, Start(setup, registry), steps);
            s.gateway.Up? ==>
              && s.registered.Some?
              && var (sessionId, session) := s.registered.value;
                 && sessionId == setup.sessionId && session.gatewayId == setup.gatewayId
                 && (session.key == setup.Key() <==> Decapsulate(setup.kem, s.carried) == setup.secret)
                 && var m := BuildProtectedReading(setup.sessionId, nonce, ciphertext);
                    (DecryptProtectedReading(t, m, session.key, sessionId).Ok?
                     <==> Decapsulate(setup.kem, s.carried) == setup.secret)
  {
    hide DecryptProtectedReading, BuildProtectedReading, ParseReading, SessionAad, GatewayClaims;
    ExecKeepsInv(setup, Start(setup, registry), steps);
    var s := Exec(setup, Start(setup, registry), steps);
    hide Valid, Exec, Channel.RequestMessage, Channel.EncapsMessage, Decapsulate;
    if s.gateway.Up? {
      var slot := ProtectedSlot(setup.Key(), setup.sessionId, nonce, ciphertext);
      ForeignReadingRefused(t, CarriedKey(setup, s), setup.sessionId, slot, setup.sessionId);
    }
  }

  /** And with ideal encapsulation no other ciphertext decapsulates to the same secret. */
  lemma OtherCiphertextOtherSecret(setup: Setup, carried: bytes)
    requires setup.Valid() && setup.ciphertext in setup.kem && setup.secret.Encapsulated?
    requires forall a, b | a in setup.kem && b in setup.kem && setup.kem[a] == setup.kem[b] :: a == b
    ensures Decapsulate(setup.kem, carried) == setup.secret <==> carried == setup.ciphertext
  {
  }
}
