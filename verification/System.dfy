/** The whole deployment as one state machine: key holders of devices, any number of gateway
    processes with their cloud channels (a restart is a new process), one cloud process, and a
    network that can forge, replay, reorder and drop. Every message a party reads is a parameter
    of its step, and one that its reader returns for some bytes; the network is bound only by the
    encryption table: it fills slots under keys it knows. `origin` records, as history, who filled each slot. */
module System {
  import opened Wrappers
  import opened Text
  import opened Protocol
  import opened Crypto
  import opened GatewayProcessing
  import opened CloudProcessing
  import G = GatewayRuns
  import C = CloudRuns
  import opened Accounting
  import Gateways = Gateway
  import Cloud
  import Replay

  /** What is provisioned: the key registries, which keys the network holds, the cloud's public
      key, and the fingerprint the gateways pin. */
  datatype Config = Config(
    deviceKeys: map<string, Key>,
    gatewayKeys: map<string, Key>,
    leaked: set<Key>,
    cloudPublicKey: bytes,
    pin: Option<Digest>)
  {
    /** Registered keys are random keys, not session keys. */
    predicate Valid() {
      && (forall d | d in deviceKeys :: deviceKeys[d].Provisioned?)
      && (forall g | g in gatewayKeys :: gatewayKeys[g].Provisioned?)
    }

    /** The gateways pin the cloud's own key. */
    predicate Pinned() { pin == Some(Sha256(cloudPublicKey)) }
  }

  datatype Origin =
    | ByNetwork
    | ByHello(deviceId: string, capabilities: seq<string>)
    | ByDevice(deviceId: string, sequence: int)
    | ByRequest(gatewayId: string)
    | ByWrap(g: nat, index: nat, key: nat, id: nat) // accepted reading `index` of gateway process g

  /** One establishment attempt that got past the pin check and encapsulated. */
  datatype Attempt = Attempt(g: nat, sessionId: string, publicKey: bytes, secret: nat, established: bool) {
    function SessionKey(): Key { DeriveSessionKey(Encapsulated(secret)) }
  }

  datatype Gateway = Gateway(gatewayId: string, process: G.Process)

  /** `secrets` counts the encapsulated secrets so far; the network knows `netSecrets`. */
  datatype State = State(
    table: Table,
    origin: map<Slot, Origin>,
    kem: KemTable,
    secrets: nat,
    netSecrets: set<nat>,
    gateways: map<nat, Gateway>,
    attempts: seq<Attempt>,
    cloud: C.Process)

  const START := State(map[], map[], map[], 0, {}, map[], [], C.START)

  /** A secret of implicit rejection comes from the cloud's private seed. */
  predicate Known(config: Config, netSecrets: set<nat>, key: Key) {
    match key
    case Provisioned(_) => key in config.leaked
    case Derived(Encapsulated(n)) => n in netSecrets
    case Derived(Rejected(_)) => false
  }

  // ----- steps -----

  datatype Step =
    | NetEncrypt(slot: Slot, plaintext: bytes)
    | NetEncapsulate(ciphertext: bytes)
    | TagHello(deviceId: string, capabilities: seq<string>, nonce: bytes, tag: bytes)
    | SendReading(deviceId: string, sequence: int, plaintext: bytes, nonce: bytes, ciphertext: bytes)
    | StartGateway(g: nat, gatewayId: string)
    | GatewayStep(g: nat, gatewayStep: G.Step)
    | TagRequest(g: nat, nonce: bytes, tag: bytes)
    | Encapsulate(g: nat, sessionId: string, reply: Message, ciphertext: bytes)
    | Confirm(a: nat, reply: Message)
    | WrapReading(g: nat, c: nat, key: nat, id: nat, nonce: bytes, ciphertext: bytes)
    | CloudStep(cloudStep: C.Step)

  predicate Seals(step: Step) {
    step.NetEncrypt? || step.TagHello? || step.SendReading? || step.TagRequest? || step.WrapReading?
  }

  /** An established attempt of this gateway's channel. */
  predicate Session(s: State, g: nat, a: nat) {
    a < |s.attempts| && s.attempts[a].g == g && s.attempts[a].established
  }

  /** A device thread of gateway g is forwarding an accepted reading. The key and the session id
      may be read from different sessions of the channel. */
  predicate MayWrap(s: State, g: nat, c: nat, key: nat, id: nat) {
    && g in s.gateways
    && c in s.gateways[g].process.conns && s.gateways[g].process.conns[c].Forwarding?
    && s.gateways[g].process.conns[c].index < |s.gateways[g].process.accepted|
    && Session(s, g, key) && Session(s, g, id)
  }

  /** The pin check comes before the encapsulation, and every attempt has a new session id. */
  ghost predicate MayEncapsulate(config: Config, s: State, g: nat, sessionId: string, reply: Message) {
    && g in s.gateways && Readable(reply)
    && ParseMlkemPubkeyReply(reply).Ok?
    && VerifyCloudPublicKey(ParseMlkemPubkeyReply(reply).value, config.pin).Ok?
    && sessionId != ""
    && forall i | 0 <= i < |s.attempts| :: s.attempts[i].sessionId != sessionId
  }

  ghost predicate May(config: Config, s: State, step: Step) {
    match step
    case NetEncrypt(slot, _) => Known(config, s.netSecrets, slot.key)
    case NetEncapsulate(ciphertext) => ciphertext !in s.kem
    case TagHello(deviceId, _, _, _) => deviceId in config.deviceKeys
    case SendReading(deviceId, _, _, _, _) => deviceId in config.deviceKeys
    case StartGateway(g, gatewayId) => g !in s.gateways && gatewayId in config.gatewayKeys
    case GatewayStep(g, st) => // a session is established by Confirm only
      g in s.gateways && G.Enabled(s.gateways[g].process, st) && !st.SessionEstablished?
    case TagRequest(g, _, _) => g in s.gateways && s.gateways[g].gatewayId in config.gatewayKeys
    case Encapsulate(g, sessionId, reply, ciphertext) =>
      ciphertext !in s.kem && MayEncapsulate(config, s, g, sessionId, reply)
    case Confirm(a, reply) =>
      && a < |s.attempts| && !s.attempts[a].established && s.attempts[a].g in s.gateways
      && Readable(reply) && ParseMlkemEstablishedReply(reply, s.attempts[a].sessionId).Ok?
    case WrapReading(g, c, key, id, _, _) => MayWrap(s, g, c, key, id)
    case CloudStep(st) => C.Enabled(s.cloud, st)
  }

  function Index(s: State, step: Step): nat
    requires step.WrapReading? && MayWrap(s, step.g, step.c, step.key, step.id)
  {
    s.gateways[step.g].process.conns[step.c].index
  }

  function SealedSlot(config: Config, s: State, step: Step): Slot
    requires Seals(step) && May(config, s, step)
  {
    match step
    case NetEncrypt(slot, _) => slot
    case TagHello(d, caps, nonce, tag) => Slot(config.deviceKeys[d], nonce, HelloClaims(d, caps), tag)
    case SendReading(d, n, _, nonce, ciphertext) => Slot(config.deviceKeys[d], nonce, LegacyAad(d, n), ciphertext)
    case TagRequest(g, nonce, tag) =>
      Slot(config.gatewayKeys[s.gateways[g].gatewayId], nonce, GatewayClaims(s.gateways[g].gatewayId), tag)
    case WrapReading(_, _, key, id, nonce, ciphertext) =>
      ProtectedSlot(s.attempts[key].SessionKey(), s.attempts[id].sessionId, nonce, ciphertext)
  }

  function SealedText(config: Config, s: State, step: Step): bytes
    requires Seals(step) && May(config, s, step)
  {
    match step
    case NetEncrypt(_, plaintext) => plaintext
    case SendReading(_, _, plaintext, _, _) => plaintext
    case WrapReading(g, _, _, _, _, _) => s.gateways[g].process.accepted[Index(s, step)].reading
    case _ => []
  }

  function SealedBy(config: Config, s: State, step: Step): Origin
    requires Seals(step) && May(config, s, step)
  {
    match step
    case NetEncrypt(_, _) => ByNetwork
    case TagHello(d, caps, _, _) => ByHello(d, caps)
    case SendReading(d, n, _, _, _) => ByDevice(d, n)
    case TagRequest(g, _, _) => ByRequest(s.gateways[g].gatewayId)
    case WrapReading(g, _, key, id, _, _) => ByWrap(g, Index(s, step), key, id)
  }

  /** Every encryption takes a fresh nonce, so it fills a new slot. */
  ghost predicate Enabled(config: Config, s: State, step: Step) {
    && May(config, s, step)
    && (Seals(step) ==>
          && SealedSlot(config, s, step) !in s.table
          && CanSeal(s.table, SealedSlot(config, s, step), SealedText(config, s, step)))
  }

  function Seal(config: Config, s: State, step: Step): State
    requires Seals(step) && May(config, s, step)
  {
    var slot := SealedSlot(config, s, step);
    s.(table := s.table[slot := SealedText(config, s, step)],
       origin := s.origin[slot := SealedBy(config, s, step)])
  }

  /** A secret encapsulated to a key that is not the cloud's is known to whoever made that key. */
  function OnEncapsulate(config: Config, s: State, g: nat, sessionId: string, raw: bytes, ciphertext: bytes): State {
    s.(attempts := s.attempts + [Attempt(g, sessionId, raw, s.secrets, false)],
       secrets := s.secrets + 1,
       kem := if raw == config.cloudPublicKey then s.kem[ciphertext := Encapsulated(s.secrets)] else s.kem,
       netSecrets := if raw == config.cloudPublicKey then s.netSecrets else s.netSecrets + {s.secrets})
  }

  function OnGateway(config: Config, s: State, g: nat, st: G.Step): State
    requires g in s.gateways && G.Enabled(s.gateways[g].process, st)
    requires G.Registered(config.deviceKeys, s.gateways[g].process)
  {
    s.(gateways := s.gateways[g := s.gateways[g].(process := G.Apply(s.table, config.deviceKeys,
        s.gateways[g].process, st))])
  }

  function OnNetEncapsulate(s: State, ciphertext: bytes): State {
    s.(kem := s.kem[ciphertext := Encapsulated(s.secrets)],
       netSecrets := s.netSecrets + {s.secrets},
       secrets := s.secrets + 1)
  }

  function OnStart(s: State, g: nat, gatewayId: string): State {
    s.(gateways := s.gateways[g := Gateway(gatewayId, G.START)])
  }

  /** The channel counts the session on the metrics of its process. */
  function OnConfirm(config: Config, s: State, a: nat): State
    requires a < |s.attempts| && s.attempts[a].g in s.gateways
    requires G.Registered(config.deviceKeys, s.gateways[s.attempts[a].g].process)
  {
    OnGateway(config, s, s.attempts[a].g, G.SessionEstablished).(
      attempts := s.attempts[a := s.attempts[a].(established := true)])
  }

  /** What makes every step of a process defined: only registered devices are served, and a
      reading waiting at a handler was kept. */
  predicate Running(config: Config, s: State) {
    && (forall g | g in s.gateways :: G.Registered(config.deviceKeys, s.gateways[g].process))
    && C.InFlight(s.cloud)
  }

  function Apply(config: Config, s: State, step: Step): State
    requires Running(config, s) && May(config, s, step)
  {
    match step
    case NetEncapsulate(ciphertext) => OnNetEncapsulate(s, ciphertext)
    case StartGateway(g, gatewayId) => OnStart(s, g, gatewayId)
    case GatewayStep(g, st) => OnGateway(config, s, g, st)
    case Encapsulate(g, sessionId, reply, ciphertext) =>
      OnEncapsulate(config, s, g, sessionId, ParseMlkemPubkeyReply(reply).value, ciphertext)
    case Confirm(a, _) => OnConfirm(config, s, a)
    case CloudStep(st) => s.(cloud := C.Apply(s.table, s.kem, config.gatewayKeys, s.cloud, st))
    case _ => Seal(config, s, step)
  }

  // ----- what every step keeps -----

  /** What a filled slot must look like, given who filled it. */
  ghost predicate OriginFits(config: Config, netSecrets: set<nat>, gateways: map<nat, Gateway>, attempts: seq<Attempt>,
                             slot: Slot, plaintext: bytes, origin: Origin)
  {
    match origin
    case ByNetwork => Known(config, netSecrets, slot.key)
    case ByHello(d, caps) =>
      d in config.deviceKeys && slot.key == config.deviceKeys[d] && slot.aad == HelloClaims(d, caps)
    case ByDevice(d, n) => d in config.deviceKeys && slot.key == config.deviceKeys[d] && slot.aad == LegacyAad(d, n)
    case ByRequest(g) => g in config.gatewayKeys && slot.key == config.gatewayKeys[g] && slot.aad == GatewayClaims(g)
    case ByWrap(g, index, key, id) =>
      && g in gateways && index < |gateways[g].process.accepted|
      && plaintext == gateways[g].process.accepted[index].reading
      && key < |attempts| && attempts[key].g == g && attempts[key].established
      && id < |attempts| && attempts[id].g == g && attempts[id].established
      && slot.key == attempts[key].SessionKey() && slot.aad == SessionAad(attempts[id].sessionId)
  }

  ghost predicate TableInv(config: Config, s: State) {
    && s.origin.Keys == s.table.Keys
    && forall slot | slot in s.table ::
         OriginFits(config, s.netSecrets, s.gateways, s.attempts, slot, s.table[slot], s.origin[slot])
  }

  /** Every attempt passed the pin check with its own id and its own secret, which the network
      knows exactly if it was encapsulated to some other key than the cloud's. */
  ghost predicate AttemptInv(config: Config, s: State) {
    && (forall i | 0 <= i < |s.attempts| ::
          && VerifyCloudPublicKey(s.attempts[i].publicKey, config.pin).Ok?
          && s.attempts[i].secret < s.secrets
          && (s.attempts[i].publicKey == config.cloudPublicKey <==> s.attempts[i].secret !in s.netSecrets))
    && (forall i, j | 0 <= i < j < |s.attempts| ::
          s.attempts[i].secret != s.attempts[j].secret && s.attempts[i].sessionId != s.attempts[j].sessionId)
    && (forall n | n in s.netSecrets :: n < s.secrets)
  }

  ghost predicate GatewaysInv(config: Config, table: Table, gateways: map<nat, Gateway>) {
    forall g | g in gateways ::
      && gateways[g].gatewayId in config.gatewayKeys
      && G.Inv(table, config.deviceKeys, gateways[g].process) && G.Ledger(gateways[g].process)
  }

  /** The attempts of a gateway process that succeeded. */
  function Established(attempts: seq<Attempt>, g: nat): set<nat> {
    set a | 0 <= a < |attempts| && attempts[a].g == g && attempts[a].established
  }

  /** Every gateway process counted its own sessions. */
  ghost predicate SessionsInv(gateways: map<nat, Gateway>, attempts: seq<Attempt>) {
    && (forall a | 0 <= a < |attempts| :: attempts[a].g in gateways)
    && (forall g | g in gateways :: gateways[g].process.sessions == |Established(attempts, g)|)
  }

  /** Session keys at the cloud come from the key derivation. */
  ghost predicate DerivedKeys(p: C.Process) {
    && (forall c | c in p.conns && C.HasSession(p.conns[c]) :: p.conns[c].key.Derived?)
    && (forall i | 0 <= i < |p.kept| :: p.kept[i].key.Derived?)
  }

  ghost predicate Inv(config: Config, s: State) {
    && Running(config, s)
    && config.Valid()
    && TableInv(config, s)
    && AttemptInv(config, s)
    && GatewaysInv(config, s.table, s.gateways)
    && SessionsInv(s.gateways, s.attempts)
    && C.Inv(s.table, config.gatewayKeys, s.cloud) && C.Ledger(s.cloud)
    && DerivedKeys(s.cloud)
  }

  lemma StartInv(config: Config)
    requires config.Valid()
    ensures Inv(config, START)
  {
    C.StartInv(START.table, config.gatewayKeys);
  }

  /** What the origins mention only grows. */
  ghost predicate Extends(s: State, s': State) {
    && s.netSecrets <= s'.netSecrets
    && (forall g | g in s.gateways ::
          g in s'.gateways && s.gateways[g].process.accepted <= s'.gateways[g].process.accepted)
    && |s.attempts| <= |s'.attempts|
    && (forall a | 0 <= a < |s.attempts| ::
          && s'.attempts[a].g == s.attempts[a].g
          && s'.attempts[a].sessionId == s.attempts[a].sessionId
          && s'.attempts[a].secret == s.attempts[a].secret
          && (s.attempts[a].established ==> s'.attempts[a].established))
  }

  lemma StillFits(config: Config, s: State, s': State, slot: Slot, plaintext: bytes, origin: Origin)
    requires Extends(s, s')
    requires OriginFits(config, s.netSecrets, s.gateways, s.attempts, slot, plaintext, origin)
    ensures OriginFits(config, s'.netSecrets, s'.gateways, s'.attempts, slot, plaintext, origin)
  {
  }

  lemma TableKept(config: Config, s: State, s': State)
    requires TableInv(config, s) && Extends(s, s') && s'.table == s.table && s'.origin == s.origin
    ensures TableInv(config, s')
  {
    hide OriginFits, Extends;
    forall slot | slot in s'.table
      ensures OriginFits(config, s'.netSecrets, s'.gateways, s'.attempts, slot, s'.table[slot], s'.origin[slot])
    {
      StillFits(config, s, s', slot, s.table[slot], s.origin[slot]);
    }
  }

  lemma SealFits(config: Config, s: State, step: Step)
    requires Seals(step) && Enabled(config, s, step)
    ensures OriginFits(config, s.netSecrets, s.gateways, s.attempts,
                       SealedSlot(config, s, step), SealedText(config, s, step), SealedBy(config, s, step))
  {
    hide HelloClaims, LegacyAad, GatewayClaims, SessionAad;
  }

  lemma SealKeepsTableInv(config: Config, s: State, step: Step)
    requires TableInv(config, s) && Seals(step) && Enabled(config, s, step)
    ensures Extends(s, Seal(config, s, step))
    ensures TableInv(config, Seal(config, s, step))
  {
    var s' := Seal(config, s, step);
    SealFits(config, s, step);
    hide OriginFits, SealedSlot, SealedText, SealedBy, CanSeal, May;
    forall slot | slot in s'.table
      ensures OriginFits(config, s'.netSecrets, s'.gateways, s'.attempts, slot, s'.table[slot], s'.origin[slot])
    {
      StillFits(config, s, s', slot, s'.table[slot], s'.origin[slot]);
    }
  }

  /** Processes are not disturbed by encryptions. */
  lemma GatewaysKept(config: Config, s: State, s': State)
    requires GatewaysInv(config, s.table, s.gateways)
    requires forall slot | slot in s.table :: slot in s'.table && s'.table[slot] == s.table[slot]
    requires forall g | g in s'.gateways ::
               g in s.gateways && s'.gateways[g].gatewayId == s.gateways[g].gatewayId
                   && s'.gateways[g].process == s.gateways[g].process
    ensures GatewaysInv(config, s'.table, s'.gateways)
  {
    hide G.Inv, G.Ledger;
    forall g | g in s'.gateways
      ensures && s'.gateways[g].gatewayId in config.gatewayKeys
              && G.Inv(s'.table, config.deviceKeys, s'.gateways[g].process) && G.Ledger(s'.gateways[g].process)
    {
      G.GrowthKeepsInv(s.table, s'.table, config.deviceKeys, s.gateways[g].process);
    }
  }

  lemma SealKeepsInv(config: Config, s: State, step: Step)
    requires Inv(config, s) && Seals(step) && Enabled(config, s, step)
    ensures Inv(config, Seal(config, s, step))
  {
    hide SealedSlot, SealedText, SealedBy, CanSeal, May, G.Inv, C.Inv, C.InFlight, C.Ledger, G.Registered, DerivedKeys,
         TableInv, Extends, AttemptInv, GatewaysInv, SessionsInv;
    var s' := Seal(config, s, step);
    assert forall slot | slot in s.table :: slot in s'.table && s'.table[slot] == s.table[slot];
    SealKeepsTableInv(config, s, step);
    hide Enabled, Seals;
    GatewaysKept(config, s, s');
    SameAttempts(config, s, s');
    C.GrowthKeepsInv(s.table, s'.table, config.gatewayKeys, s.cloud);
  }

  /** A gateway step only ever appends to what was accepted, and only an establishment counts a
      session. */
  lemma AcceptedGrows(t: Table, keys: map<string, Key>, p: G.Process, st: G.Step)
    requires G.Enabled(p, st) && G.Registered(keys, p)
    ensures var p' := G.Apply(t, keys, p, st);
            p.accepted <= p'.accepted && p'.sessions == p.sessions + One(st.SessionEstablished?)
  {
    hide DecryptLegacyMessage, ParseHello, LegacySlot;
  }

  /** What one step of a gateway process keeps, but for the count of its sessions. */
  lemma ProcessStepKeeps(config: Config, s: State, g: nat, st: G.Step)
    requires Inv(config, s) && g in s.gateways && G.Enabled(s.gateways[g].process, st)
    ensures var s' := OnGateway(config, s, g, st);
            && Running(config, s') && TableInv(config, s') && AttemptInv(config, s')
            && GatewaysInv(config, s'.table, s'.gateways) && Extends(s, s')
            && s'.gateways[g].process.sessions == s.gateways[g].process.sessions + One(st.SessionEstablished?)
  {
    var p := s.gateways[g].process;
    hide G.Apply, G.Inv, G.Ledger, G.Registered, G.Enabled, Extends, TableInv, C.Inv, C.InFlight, C.Ledger, DerivedKeys,
         AttemptInv, SessionsInv;
    assert G.Inv(s.table, config.deviceKeys, p) && G.Ledger(p);
    hide GatewaysInv;
    AcceptedGrows(s.table, config.deviceKeys, p, st);
    G.StepKeepsInv(s.table, config.deviceKeys, p, st);
    G.StepKeepsLedger(s.table, config.deviceKeys, p, st);
    var s' := OnGateway(config, s, g, st);
    hide Running;
    ProcessKept(config, s, s', g);
    ProcessExtends(s, s', g);
    TableKept(config, s, s');
    SameAttempts(config, s, s');
  }

  lemma GatewayStepKeepsInv(config: Config, s: State, g: nat, st: G.Step)
    requires Inv(config, s) && g in s.gateways && G.Enabled(s.gateways[g].process, st) && !st.SessionEstablished?
    ensures Inv(config, OnGateway(config, s, g, st))
  {
    hide G.Apply, G.Enabled, TableInv, C.Inv, C.InFlight, C.Ledger, DerivedKeys, AttemptInv, GatewaysInv, Running,
         Established;
    ProcessStepKeeps(config, s, g, st);
  }

  lemma ProcessKept(config: Config, s: State, s': State, g: nat)
    requires Running(config, s) && GatewaysInv(config, s.table, s.gateways)
    requires g in s.gateways && g in s'.gateways
    requires s' == s.(gateways := s.gateways[g := s.gateways[g].(process := s'.gateways[g].process)])
    requires G.Inv(s.table, config.deviceKeys, s'.gateways[g].process) && G.Ledger(s'.gateways[g].process)
    ensures Running(config, s') && GatewaysInv(config, s'.table, s'.gateways)
  {
    hide G.Inv, G.Ledger, G.Registered, C.InFlight;
    RegisteredByInv(s.table, config.deviceKeys, s'.gateways[g].process);
  }

  lemma RegisteredByInv(t: Table, keys: map<string, Key>, p: G.Process)
    requires G.Inv(t, keys, p)
    ensures G.Registered(keys, p)
  {
  }

  lemma ProcessExtends(s: State, s': State, g: nat)
    requires s'.netSecrets == s.netSecrets && s'.attempts == s.attempts
    requires g in s.gateways && g in s'.gateways && s'.gateways == s.gateways[g := s'.gateways[g]]
    requires s.gateways[g].process.accepted <= s'.gateways[g].process.accepted
    ensures Extends(s, s')
  {
  }

  lemma SameAttempts(config: Config, s: State, s': State)
    requires AttemptInv(config, s) && s'.attempts == s.attempts && s'.secrets == s.secrets
        && s'.netSecrets == s.netSecrets
    ensures AttemptInv(config, s')
  {
  }

  lemma ReadingKeepsDerivedKeys(t: Table, p: C.Process, c: nat, live: C.Conn, m: Message)
    requires DerivedKeys(p) && live.Live? && live.key.Derived?
    ensures DerivedKeys(C.OnReading(t, p, c, live, m))
  {
    hide Cloud.Screen, Cloud.Presents, Cloud.Settle, ReceivedSlot;
  }

  lemma HandshakeKeepsDerivedKeys(t: Table, kem: KemTable, keys: map<string, Key>, p: C.Process, c: nat, m: Message,
                                  sent: bool, gatewayId: string)
    requires DerivedKeys(p)
    ensures DerivedKeys(C.OnRequest(t, keys, p, c, m, sent))
    ensures DerivedKeys(C.OnEncaps(kem, p, c, m, gatewayId))
  {
    hide Cloud.OnRequest, Cloud.Settle, RequestSlot, ParseMlkemEncaps, Decapsulate;
  }

  lemma CloudStepKeepsDerivedKeys(t: Table, kem: KemTable, keys: map<string, Key>, p: C.Process, st: C.Step)
    requires C.Enabled(p, st) && C.InFlight(p) && DerivedKeys(p)
    ensures DerivedKeys(C.Apply(t, kem, keys, p, st))
  {
    hide Cloud.Settle, Cloud.Commit, C.OnReading, C.OnRequest, C.OnEncaps;
    match st
    case Reading(c, Ok(m)) => ReadingKeepsDerivedKeys(t, p, c, p.conns[c], m);
    case Request(c, Ok(m), sent) => HandshakeKeepsDerivedKeys(t, kem, keys, p, c, m, sent, "");
    case Encaps(c, Ok(m)) => HandshakeKeepsDerivedKeys(t, kem, keys, p, c, m, true, p.conns[c].gatewayId);
    case _ =>
  }

  lemma CloudStepKeepsInv(config: Config, s: State, st: C.Step)
    requires Inv(config, s) && C.Enabled(s.cloud, st)
    ensures Inv(config, s.(cloud := C.Apply(s.table, s.kem, config.gatewayKeys, s.cloud, st)))
  {
    hide C.Apply, C.Inv, C.Ledger, C.Enabled, DerivedKeys, TableInv, AttemptInv, GatewaysInv, SessionsInv;
    C.StepKeepsInv(s.table, s.kem, config.gatewayKeys, s.cloud, st);
    C.StepKeepsLedger(s.table, s.kem, config.gatewayKeys, s.cloud, st);
    CloudStepKeepsDerivedKeys(s.table, s.kem, config.gatewayKeys, s.cloud, st);
    var s' := s.(cloud := C.Apply(s.table, s.kem, config.gatewayKeys, s.cloud, st));
    hide Running, C.InFlight;
    InFlightByInv(s.table, config.gatewayKeys, s'.cloud);
    SameGateways(config, s, s');
    NothingSealed(config, s, s');
    SameAttempts(config, s, s');
  }

  lemma InFlightByInv(t: Table, keys: map<string, Key>, p: C.Process)
    requires C.Inv(t, keys, p)
    ensures C.InFlight(p)
  {
    hide C.InFlight, C.Filtered, C.StoredOnce, C.Grounded, C.RegistryInv;
  }

  lemma NothingSealed(config: Config, s: State, s': State)
    requires TableInv(config, s) && s'.table == s.table && s'.origin == s.origin
    requires s'.netSecrets == s.netSecrets && s'.gateways == s.gateways && s'.attempts == s.attempts
    ensures TableInv(config, s')
  {
    hide TableInv;
    TableKept(config, s, s');
  }

  lemma SameGateways(config: Config, s: State, s': State)
    requires Running(config, s) && s'.gateways == s.gateways && C.InFlight(s'.cloud)
    ensures Running(config, s')
  {
    hide C.InFlight, G.Registered;
  }

  lemma NewAttemptKept(config: Config, s: State, g: nat, sessionId: string, raw: bytes, ciphertext: bytes)
    requires AttemptInv(config, s) && VerifyCloudPublicKey(raw, config.pin).Ok?
    requires forall i | 0 <= i < |s.attempts| :: s.attempts[i].sessionId != sessionId
    ensures AttemptInv(config, OnEncapsulate(config, s, g, sessionId, raw, ciphertext))
  {
    hide VerifyCloudPublicKey;
  }

  lemma UnconfirmedKeepsSessions(gateways: map<nat, Gateway>, attempts: seq<Attempt>, more: Attempt)
    requires SessionsInv(gateways, attempts) && more.g in gateways && !more.established
    ensures SessionsInv(gateways, attempts + [more])
  {
    forall g | g in gateways
      ensures Established(attempts + [more], g) == Established(attempts, g)
    {
    }
  }

  lemma EncapsulateKeepsInv(config: Config, s: State, g: nat, sessionId: string, reply: Message, ciphertext: bytes)
    requires Inv(config, s) && MayEncapsulate(config, s, g, sessionId, reply)
    ensures Inv(config, OnEncapsulate(config, s, g, sessionId, ParseMlkemPubkeyReply(reply).value, ciphertext))
  {
    hide G.Inv, G.Ledger, G.Registered, C.Inv, C.InFlight, C.Ledger, DerivedKeys, ParseMlkemPubkeyReply,
         VerifyCloudPublicKey, TableInv, AttemptInv, GatewaysInv, SessionsInv;
    var raw := ParseMlkemPubkeyReply(reply).value;
    TableKept(config, s, OnEncapsulate(config, s, g, sessionId, raw, ciphertext));
    NewAttemptKept(config, s, g, sessionId, raw, ciphertext);
    UnconfirmedKeepsSessions(s.gateways, s.attempts, Attempt(g, sessionId, raw, s.secrets, false));
  }

  lemma NetEncapsulateKeepsInv(config: Config, s: State, ciphertext: bytes)
    requires Inv(config, s)
    ensures Inv(config, OnNetEncapsulate(s, ciphertext))
  {
    hide G.Inv, G.Ledger, G.Registered, C.Inv, C.InFlight, C.Ledger, DerivedKeys, TableInv, GatewaysInv, SessionsInv;
    TableKept(config, s, OnNetEncapsulate(s, ciphertext));
  }

  lemma FreshProcessKeepsSessions(gateways: map<nat, Gateway>, attempts: seq<Attempt>, g: nat, gateway: Gateway)
    requires SessionsInv(gateways, attempts) && g !in gateways && gateway.process.sessions == 0
    ensures SessionsInv(gateways[g := gateway], attempts)
  {
    assert Established(attempts, g) == {};
  }

  lemma StartKeepsInv(config: Config, s: State, g: nat, gatewayId: string)
    requires Inv(config, s) && g !in s.gateways && gatewayId in config.gatewayKeys
    ensures Inv(config, OnStart(s, g, gatewayId))
  {
    hide G.Inv, G.Ledger, G.Registered, C.Inv, C.InFlight, C.Ledger, DerivedKeys, TableInv, AttemptInv, SessionsInv;
    var s' := OnStart(s, g, gatewayId);
    TableKept(config, s, s');
    SameAttempts(config, s, s');
    G.StartInv(s.table, config.deviceKeys);
    RegisteredByInv(s.table, config.deviceKeys, G.START);
    FreshProcessKeepsSessions(s.gateways, s.attempts, g, Gateway(gatewayId, G.START));
  }

  lemma ConfirmedKeepsSessions(gateways: map<nat, Gateway>, attempts: seq<Attempt>, a: nat, gateway: Gateway)
    requires SessionsInv(gateways, attempts) && a < |attempts| && !attempts[a].established && attempts[a].g in gateways
    requires gateway.process.sessions == gateways[attempts[a].g].process.sessions + 1
    ensures SessionsInv(gateways[attempts[a].g := gateway], attempts[a := attempts[a].(established := true)])
  {
    hide Established;
    forall g | g in gateways {
      EstablishedMoves(attempts, a, g);
    }
  }

  lemma EstablishedMoves(attempts: seq<Attempt>, a: nat, g: nat)
    requires a < |attempts| && !attempts[a].established
    ensures |Established(attempts[a := attempts[a].(established := true)], g)|
         == |Established(attempts, g)| + One(g == attempts[a].g)
  {
    var attempts' := attempts[a := attempts[a].(established := true)];
    var before := Established(attempts, g);
    assert Established(attempts', g) == if g == attempts[a].g then before + {a} else before;
  }

  lemma ConfirmKeepsInv(config: Config, s: State, a: nat)
    requires Inv(config, s) && a < |s.attempts| && !s.attempts[a].established && s.attempts[a].g in s.gateways
    ensures Inv(config, OnConfirm(config, s, a))
  {
    hide G.Apply, G.Registered, TableInv, C.Inv, C.InFlight, C.Ledger, DerivedKeys, AttemptInv, GatewaysInv,
         SessionsInv, Extends;
    var g := s.attempts[a].g;
    ProcessStepKeeps(config, s, g, G.SessionEstablished);
    var mid, s' := OnGateway(config, s, g, G.SessionEstablished), OnConfirm(config, s, a);
    ConfirmExtends(mid, s', a);
    TableKept(config, mid, s');
    ConfirmedAttempts(config, mid, s', a);
    ConfirmedKeepsSessions(s.gateways, s.attempts, a, s'.gateways[g]);
  }

  lemma ConfirmExtends(s: State, s': State, a: nat)
    requires a < |s.attempts| && s' == s.(attempts := s.attempts[a := s.attempts[a].(established := true)])
    ensures Extends(s, s')
  {
  }

  lemma ConfirmedAttempts(config: Config, s: State, s': State, a: nat)
    requires AttemptInv(config, s)
    requires a < |s.attempts| && s' == s.(attempts := s.attempts[a := s.attempts[a].(established := true)])
    ensures AttemptInv(config, s')
  {
    hide VerifyCloudPublicKey;
  }

  lemma StepKeepsInv(config: Config, s: State, step: Step)
    requires Inv(config, s) && Enabled(config, s, step)
    ensures Inv(config, Apply(config, s, step))
  {
    hide Inv, Running, MayEncapsulate, ParseMlkemPubkeyReply, VerifyCloudPublicKey, G.Apply, C.Apply, G.Enabled,
        C.Enabled,
         MayWrap, Known, CanSeal, OnEncapsulate, OnGateway, Seal;
    match step
    case GatewayStep(g, st) => GatewayStepKeepsInv(config, s, g, st);
    case Encapsulate(g, sessionId, reply, ciphertext) =>
      EncapsulateKeepsInv(config, s, g, sessionId, reply, ciphertext);
    case CloudStep(st) => CloudStepKeepsInv(config, s, st);
    case NetEncapsulate(ciphertext) => NetEncapsulateKeepsInv(config, s, ciphertext);
    case StartGateway(g, gatewayId) => StartKeepsInv(config, s, g, gatewayId);
    case Confirm(a, _) => ConfirmKeepsInv(config, s, a);
    case _ => SealKeepsInv(config, s, step);
  }

  // ----- runs -----

  ghost predicate Valid(config: Config, s: State, steps: seq<Step>)
    requires Inv(config, s)
    decreases |steps|
  {
    || steps == []
    || (&& Enabled(config, s, steps[0])
        && (StepKeepsInv(config, s, steps[0]); Valid(config, Apply(config, s, steps[0]), steps[1..])))
  }

  /** The state after a run. */
  ghost function Exec(config: Config, s: State, steps: seq<Step>): (r: State)
    requires Inv(config, s) && Valid(config, s, steps)
    ensures Inv(config, r)
    decreases |steps|
  {
    if steps == [] then s
    else
      StepKeepsInv(config, s, steps[0]);
      Exec(config, Apply(config, s, steps[0]), steps[1..])
  }

  /** A run of a fresh deployment ends in this state. */
  ghost predicate Reaches(config: Config, steps: seq<Step>, s: State)
    ensures Reaches(config, steps, s) ==> Inv(config, s)
  {
    config.Valid() && (StartInv(config); Valid(config, START, steps) && Exec(config, START, steps) == s)
  }

  // ----- what holds of every run -----

  /** Who can have filled a slot, read off its key and context. */
  lemma FilledByContext(config: Config, s: State, slot: Slot, d: string, n: int, caps: seq<string>, gatewayId: string)
    requires Inv(config, s) && slot in s.table && slot.key.Provisioned? && slot.key !in config.leaked
    ensures slot.aad == LegacyAad(d, n) ==> s.origin[slot] == ByDevice(d, n)
    ensures slot.aad == HelloClaims(d, caps) ==> s.origin[slot] == ByHello(d, caps)
    ensures slot.aad == GatewayClaims(gatewayId) ==> s.origin[slot] == ByRequest(gatewayId)
  {
    hide LegacyAad, HelloClaims, GatewayClaims, GatewaysInv, C.Inv, DerivedKeys, AttemptInv, Running;
    match s.origin[slot]
    case ByNetwork =>
    case ByDevice(d', n') =>
      FamiliesDisjoint(d', n', d, caps, gatewayId);
      if slot.aad == LegacyAad(d, n) {
        LegacyAadInjective(d, n, d', n');
      }
    case ByHello(d', caps') =>
      FamiliesDisjoint(d, n, d', caps', gatewayId);
      if slot.aad == HelloClaims(d, caps) {
        HelloClaimsInjective(d, caps, d', caps');
      }
    case ByRequest(g') =>
      FamiliesDisjoint(d, n, d, caps, g');
      if slot.aad == GatewayClaims(gatewayId) {
        GatewayClaimsInjective(gatewayId, g');
      }
    case ByWrap(_, _, _, _) =>
  }

  /** Device-hop agreement, injectively: whatever the network does, a reading a gateway process
      accepts for a device whose key is secret was encrypted by that device, with that sequence
      and plaintext; and over all connections of the process no two accepted readings of a device
      share a sequence, or an encryption. */
  lemma DeviceAgreement(config: Config, steps: seq<Step>, s: State, g: nat, i: nat)
    requires Reaches(config, steps, s)
    requires g in s.gateways && i < |s.gateways[g].process.accepted|
    requires var d := s.gateways[g].process.accepted[i].deviceId;
             d in config.deviceKeys ==> config.deviceKeys[d] !in config.leaked
    ensures var accepted := s.gateways[g].process.accepted;
            var a := accepted[i];
            && a.deviceId in config.deviceKeys
            && a.slot in s.table && s.table[a.slot] == a.reading
            && s.origin[a.slot] == ByDevice(a.deviceId, a.sequence)
            && forall j | 0 <= j < |accepted| && j != i && accepted[j].deviceId == a.deviceId ::
                 accepted[j].sequence != a.sequence && accepted[j].slot != a.slot
  {
    AcceptedByDevice(config, s, g, i);
    AcceptedApart(config, s, g, i);
  }

  lemma GatewayProcessInv(config: Config, s: State, g: nat)
    requires Inv(config, s) && g in s.gateways
    ensures G.Inv(s.table, config.deviceKeys, s.gateways[g].process)
    ensures s.origin.Keys == s.table.Keys
  {
    hide G.Inv, C.Inv, OriginFits, AttemptInv, DerivedKeys, Running;
  }

  lemma AcceptedByDevice(config: Config, s: State, g: nat, i: nat)
    requires Inv(config, s) && g in s.gateways && i < |s.gateways[g].process.accepted|
    ensures var a := s.gateways[g].process.accepted[i];
            && G.AcceptedFrom(s.table, config.deviceKeys, a)
            && a.slot in s.origin
            && (a.slot.key !in config.leaked ==> s.origin[a.slot] == ByDevice(a.deviceId, a.sequence))
  {
    GatewayProcessInv(config, s, g);
    var a := s.gateways[g].process.accepted[i];
    assert G.AcceptedFrom(s.table, config.deviceKeys, a);
    assert a.slot.key.Provisioned?;
    hide LegacyAad, ParseReading, Inv, G.Inv;
    if a.slot.key !in config.leaked {
      FilledByContext(config, s, a.slot, a.deviceId, a.sequence, [], "");
    }
  }

  lemma AcceptedApart(config: Config, s: State, g: nat, i: nat)
    requires Inv(config, s) && g in s.gateways && i < |s.gateways[g].process.accepted|
    ensures var accepted := s.gateways[g].process.accepted;
            forall j | 0 <= j < |accepted| && j != i && accepted[j].deviceId == accepted[i].deviceId ::
              accepted[j].sequence != accepted[i].sequence && accepted[j].slot != accepted[i].slot
  {
    GatewayProcessInv(config, s, g);
    var p := s.gateways[g].process;
    G.AcceptedAreRecordHighs(p);
    hide Inv, G.Filtered, ParseReading, LegacyAad;
    forall j | 0 <= j < |p.accepted| && j != i && p.accepted[j].deviceId == p.accepted[i].deviceId
      ensures p.accepted[j].sequence != p.accepted[i].sequence && p.accepted[j].slot != p.accepted[i].slot
    {
      assert G.AcceptedFrom(s.table, config.deviceKeys, p.accepted[j]);
      assert G.AcceptedFrom(s.table, config.deviceKeys, p.accepted[i]);
      if p.accepted[j].slot == p.accepted[i].slot {
        LegacyAadInjective(p.accepted[j].deviceId, p.accepted[j].sequence, p.accepted[i].deviceId,
            p.accepted[i].sequence);
      }
    }
  }

  /** Fallback safety: a gateway activates fallback for a device whose key is secret only if the
      holder of that key tagged exactly those claims, with the legacy capability present and the
      modern one absent. */
  lemma FallbackSafety(config: Config, steps: seq<Step>, s: State, g: nat, i: nat)
    requires Reaches(config, steps, s)
    requires g in s.gateways && i < |s.gateways[g].process.fallbacks|
    requires var d := s.gateways[g].process.fallbacks[i].deviceId;
             d in config.deviceKeys ==> config.deviceKeys[d] !in config.leaked
    ensures var f := s.gateways[g].process.fallbacks[i];
            && f.deviceId in config.deviceKeys
            && f.slot in s.origin && s.origin[f.slot] == ByHello(f.deviceId, f.capabilities)
            && CAP_CHACHA20_POLY1305 in f.capabilities && CAP_MLKEM_768 !in f.capabilities
  {
    GatewayProcessInv(config, s, g);
    var f := s.gateways[g].process.fallbacks[i];
    assert G.FallbackFrom(s.table, config.deviceKeys, f);
    assert f.slot.key.Provisioned?;
    hide HelloClaims, Inv, G.Inv, Reaches;
    FilledByContext(config, s, f.slot, "", 0, f.capabilities, "");
    FilledByContext(config, s, f.slot, f.deviceId, 0, f.capabilities, "");
  }

  /** Gateway authentication: the cloud admits a gateway whose key is secret only on a tag that
      gateway made over its own id. */
  lemma GatewayAuthentication(config: Config, steps: seq<Step>, s: State, i: nat)
    requires Reaches(config, steps, s) && i < |s.cloud.admissions|
    requires var g := s.cloud.admissions[i].gatewayId;
             g in config.gatewayKeys ==> config.gatewayKeys[g] !in config.leaked
    ensures var a := s.cloud.admissions[i];
            && a.gatewayId in config.gatewayKeys
            && a.slot in s.origin && s.origin[a.slot] == ByRequest(a.gatewayId)
  {
    assert C.AdmittedFrom(s.table, config.gatewayKeys, s.cloud.admissions[i]);
    var a := s.cloud.admissions[i];
    assert a.slot.key.Provisioned? && s.origin.Keys == s.table.Keys;
    hide GatewayClaims, Inv, Reaches;
    FilledByContext(config, s, a.slot, "", 0, [], a.gatewayId);
  }

  // ----- the session hop -----

  lemma CloudProcessInv(config: Config, s: State)
    requires Inv(config, s)
    ensures C.InFlight(s.cloud) && C.Filtered(s.cloud) && C.StoredOnce(s.cloud)
    ensures C.RegistryInv(s.cloud.conns, s.cloud.desk.registry, s.cloud.owner)
  {
    hide Running, TableInv, AttemptInv, GatewaysInv, SessionsInv, DerivedKeys, C.Ledger, C.Filtered, C.Grounded,
         C.RegistryInv;
  }

  lemma KeptInv(config: Config, s: State, i: nat)
    requires Inv(config, s) && i < |s.cloud.kept|
    ensures C.KeptFrom(s.table, s.cloud.kept[i]) && s.cloud.kept[i].key.Derived?
    ensures s.cloud.kept[i].slot in s.origin
    ensures var k := s.cloud.kept[i];
            OriginFits(config, s.netSecrets, s.gateways, s.attempts, k.slot, s.table[k.slot], s.origin[k.slot])
  {
    hide G.Inv, OriginFits, AttemptInv, Running, ParseReading, SessionAad;
  }

  /** Every reading the cloud keeps on a session whose key the network does not know was wrapped
      by one gateway process, from a reading that process had accepted, under a key of its channel
      and for exactly this session id. So it is on any connection, including one opened by
      replaying a whole handshake. */
  lemma KeptWasWrapped(config: Config, s: State, i: nat)
    requires Inv(config, s) && i < |s.cloud.kept| && !Known(config, s.netSecrets, s.cloud.kept[i].key)
    ensures var k := s.cloud.kept[i];
            && k.slot in s.table && k.slot in s.origin && s.origin[k.slot].ByWrap?
            && var w := s.origin[k.slot];
            && w.g in s.gateways && w.index < |s.gateways[w.g].process.accepted|
            && s.table[k.slot] == s.gateways[w.g].process.accepted[w.index].reading
            && ParseReading(s.table[k.slot]) == Ok(k.reading)
            && Session(s, w.g, w.key) && k.key == s.attempts[w.key].SessionKey()
            && Session(s, w.g, w.id) && k.sessionId == s.attempts[w.id].sessionId
  {
    KeptInv(config, s, i);
    var k := s.cloud.kept[i];
    hide Inv, ParseReading;
    if s.origin[k.slot].ByWrap? {
      SessionAadInjective(k.sessionId, s.attempts[s.origin[k.slot].id].sessionId);
    } else {
      hide SessionAad;
      assert false by { DeviceKeysAreProvisioned(config, s); }
    }
  }

  lemma SessionAadInjective(a: string, b: string)
    ensures SessionAad(a) == SessionAad(b) ==> a == b
  {
    if SessionAad(a) == SessionAad(b) {
      Utf8Injective(a, b);
    }
  }

  lemma DeviceKeysAreProvisioned(config: Config, s: State)
    requires Inv(config, s)
    ensures config.Valid()
  {
    hide G.Inv, C.Inv, OriginFits, AttemptInv, Running, DerivedKeys;
  }

  /** The network knows the key of an attempt exactly when the attempt encapsulated to some other
      key than the cloud's; no two attempts have the same key. */
  lemma KeyIsSecretIff(config: Config, s: State, a: nat)
    requires Inv(config, s) && a < |s.attempts|
    ensures !Known(config, s.netSecrets, s.attempts[a].SessionKey())
        <==> s.attempts[a].publicKey == config.cloudPublicKey
    ensures config.Pinned() ==> s.attempts[a].publicKey == config.cloudPublicKey
    ensures forall b | 0 <= b < |s.attempts| && s.attempts[b].SessionKey() == s.attempts[a].SessionKey() :: b == a
  {
    hide G.Inv, C.Inv, TableInv, Running, DerivedKeys;
    forall b | 0 <= b < |s.attempts| && b != a
      ensures s.attempts[b].secret != s.attempts[a].secret
    {
      assert b < a || a < b;
    }
  }

  /** Session binding, whatever the network does: the key of an attempt that passed the pin check
      stays unknown to the network, and every reading the cloud stores on a connection with that
      key was wrapped by that attempt's own channel, under this key, for exactly the session id of
      that connection. */
  lemma SessionBinding(config: Config, steps: seq<Step>, s: State, a: nat, j: nat)
    requires Reaches(config, steps, s) && config.Pinned() && a < |s.attempts|
    ensures !Known(config, s.netSecrets, s.attempts[a].SessionKey())
    ensures |s.cloud.desk.log| == |s.cloud.stored|
    ensures j < |s.cloud.stored| ==> s.cloud.stored[j] < |s.cloud.kept|
    ensures j < |s.cloud.stored| && s.cloud.kept[s.cloud.stored[j]].key == s.attempts[a].SessionKey() ==>
              var k := s.cloud.kept[s.cloud.stored[j]];
              && s.cloud.desk.log[j] == k.reading
              && k.slot in s.table && k.slot in s.origin && s.origin[k.slot].ByWrap?
              && var w := s.origin[k.slot];
              && w.g == s.attempts[a].g && w.key == a
              && Session(s, w.g, w.id) && s.attempts[w.id].sessionId == k.sessionId
              && w.g in s.gateways && w.index < |s.gateways[w.g].process.accepted|
              && s.table[k.slot] == s.gateways[w.g].process.accepted[w.index].reading
  {
    hide Inv, Reaches, Known;
    KeyIsSecretIff(config, s, a);
    CloudProcessInv(config, s);
    if j < |s.cloud.stored| {
      var i := s.cloud.stored[j];
      if s.cloud.kept[i].key == s.attempts[a].SessionKey() {
        KeptWasWrapped(config, s, i);
      }
    }
  }

  /** Nothing is ever stored on a session that implicit rejection gave its key: a substituted
      ciphertext only silences its connection. */
  lemma RejectedStoresNothing(config: Config, steps: seq<Step>, s: State, i: nat)
    requires Reaches(config, steps, s) && i < |s.cloud.kept|
    ensures s.cloud.kept[i].key.Derived? && s.cloud.kept[i].key.secret.Encapsulated?
  {
    KeptInv(config, s, i);
    hide Inv, Reaches;
    if !Known(config, s.netSecrets, s.cloud.kept[i].key) {
      KeptWasWrapped(config, s, i);
    }
  }

  /** At-most-once storage over every run of the deployment: any number of gateways, connections,
      reconnects, restarts and replays. With distinct ids the registry is the live sessions. */
  lemma StoredAtMostOnce(config: Config, steps: seq<Step>, s: State)
    requires Reaches(config, steps, s)
    ensures forall i, j | 0 <= i < j < |s.cloud.desk.log| ::
              Cloud.ArrivalOf(s.cloud.desk.log[i]) != Cloud.ArrivalOf(s.cloud.desk.log[j])
  {
    hide Reaches, Inv, Cloud.ArrivalOf, C.Filtered;
    CloudProcessInv(config, s);
    C.AtMostOnce(s.cloud);
  }

  /** The registry over every run: a registered id belongs to the handler that registered it last,
      which is live or failed to send its reply; with distinct ids and no such failure the registry
      is exactly the sessions of handlers that have not evicted them yet, with their keys. */
  lemma RegistryLifecycle(config: Config, steps: seq<Step>, s: State, id: string)
    requires Reaches(config, steps, s)
    ensures id in s.cloud.desk.registry ==> id in s.cloud.owner && C.Holds(s.cloud.conns, s.cloud.owner[id], id)
    ensures C.DistinctIds(s.cloud.conns) && (forall c | c in s.cloud.conns :: !s.cloud.conns[c].Stranded?) ==>
              (id in s.cloud.desk.registry
               <==> exists c :: C.Holds(s.cloud.conns, c, id) && !s.cloud.conns[c].Stranded?)
    ensures C.DistinctIds(s.cloud.conns) ==>
              forall c | C.Holds(s.cloud.conns, c, id) && C.HasSession(s.cloud.conns[c]) ::
                id in s.cloud.desk.registry
                && s.cloud.desk.registry[id] == Cloud.Session(s.cloud.conns[c].key, s.cloud.conns[c].gatewayId)
  {
    hide Inv, Reaches;
    CloudProcessInv(config, s);
    if C.DistinctIds(s.cloud.conns) {
      C.RegistryIsLive(s.cloud, id);
    }
  }

  // ----- the books -----

  /** The books of a gateway process over every run of the deployment, with any number of handlers
      inside `send_reading` at once and the channel counting on the same metrics; when no handler is
      inside, every processed reading was forwarded or failed to be. */
  lemma GatewayLedger(config: Config, steps: seq<Step>, s: State, g: nat)
    requires Reaches(config, steps, s) && g in s.gateways
    ensures var p := s.gateways[g].process;
            var d := p.desk;
            && d.Tally(MessagesReceived) + CountIf(p.endings, Gateways.IS_DECLINED)
            == d.Tally(MessagesProcessed) + d.Tally(MessagesRejected) + CountIf(p.endings, Gateways.IS_BAD_READING)
            && d.Tally(MessagesProcessed) == |p.accepted|
            && d.Tally(MessagesProcessed)
            == d.Tally(MessagesForwarded) + CountIf(p.endings, Gateways.IS_FORWARDING) + |G.Sending(p.conns)|
            && d.Tally(MessagesForwarded) == |p.delivered|
            && d.Tally(Errors) == CountIf(p.endings, Gateways.IS_COUNTED) + p.failedAttempts
            && d.Tally(FallbackActivations) == |p.fallbacks|
            && d.Tally(LegacyDevicesDetected) == |G.Devices(p.fallbacks)|
            && d.Tally(MlkemSessionsEstablished) == |Established(s.attempts, g)|
            && ((forall c | c in p.conns :: !p.conns[c].Forwarding?) ==>
                  d.Tally(MessagesProcessed) == d.Tally(MessagesForwarded) + CountIf(p.endings, Gateways.IS_FORWARDING))
  {
    assert G.Ledger(s.gateways[g].process) && SessionsInv(s.gateways, s.attempts) by {
      hide Reaches, TableInv, AttemptInv, C.Inv, C.Ledger, G.Inv, G.Ledger, DerivedKeys, Running;
    }
    hide Inv, Reaches, CountIf, G.Devices, Established;
    var p := s.gateways[g].process;
    if forall c | c in p.conns :: !p.conns[c].Forwarding? {
      assert G.Sending(p.conns) == {};
    }
  }

  /** The books of the cloud over every run, with any number of handlers between the guard's check
      and the store; and what its store of 1000 readings holds. */
  lemma CloudLedger(config: Config, steps: seq<Step>, s: State)
    requires Reaches(config, steps, s)
    ensures var p := s.cloud;
            var d := p.desk;
            && d.Tally(MessagesReceived) + CountIf(p.endings, Cloud.IS_REFUSED)
            == d.Tally(MessagesProcessed) + d.Tally(MessagesRejected) + CountIf(p.endings, Cloud.IS_BAD_READING)
               + |C.Waiting(p.conns)|
            && d.Tally(MessagesProcessed) == |d.log| && |p.kept| == |d.log| + |C.Waiting(p.conns)|
            && d.Tally(Errors) == CountIf(p.endings, Cloud.IS_COUNTED)
            && d.Tally(MlkemSessionsEstablished) == |C.Registered(p.conns)|
            && |p.readings| == (if d.Tally(MessagesProcessed) < 1000 then d.Tally(MessagesProcessed) else 1000)
            && p.readings == d.log[|d.log| - |p.readings|..]
            && ((forall c | c in p.conns :: !p.conns[c].Storing?) ==>
                  d.Tally(MessagesReceived) + CountIf(p.endings, Cloud.IS_REFUSED)
                  == d.Tally(MessagesProcessed) + d.Tally(MessagesRejected) + CountIf(p.endings, Cloud.IS_BAD_READING))
  {
    assert C.Ledger(s.cloud) by {
      hide Reaches, TableInv, AttemptInv, GatewaysInv, C.Inv, C.Ledger, DerivedKeys, Running;
    }
    hide Inv, Reaches, CountIf, C.Registered;
    var p := s.cloud;
    if forall c | c in p.conns :: !p.conns[c].Storing? {
      assert C.Waiting(p.conns) == {};
    }
  }

  // ----- end to end -----

  /** What this device has encrypted carries the id and the sequence it was sent under. */
  ghost predicate HonestDevice(s: State, d: string) {
    forall slot | slot in s.table && slot in s.origin && s.origin[slot].ByDevice? && s.origin[slot].deviceId == d ::
      Cloud.ReadsAs(s.table[slot], Replay.Arrival(d, s.origin[slot].sequence))
  }

  predicate Wrapped(s: State, i: nat)
    requires i < |s.cloud.kept|
  {
    var k := s.cloud.kept[i];
    && k.slot in s.origin && s.origin[k.slot].ByWrap? && s.origin[k.slot].g in s.gateways
    && s.origin[k.slot].index < |s.gateways[s.origin[k.slot].g].process.accepted|
  }

  /** The acceptance a kept reading was wrapped from. */
  function Source(s: State, i: nat): G.Accepted
    requires i < |s.cloud.kept| && Wrapped(s, i)
  {
    var w := s.origin[s.cloud.kept[i].slot];
    s.gateways[w.g].process.accepted[w.index]
  }

  /** End to end: a reading stored on a session whose key the network does not know was accepted by a
      gateway for a registered device, from the same bytes; if that device's key is secret the device
      encrypted them under that sequence. What is stored claims that device and sequence exactly when
      the encrypted bytes do, so for an honest device it always does. */
  lemma EndToEnd(config: Config, steps: seq<Step>, s: State, j: nat)
    requires Reaches(config, steps, s)
    requires j < |s.cloud.stored| && s.cloud.stored[j] < |s.cloud.kept|
    requires !Known(config, s.netSecrets, s.cloud.kept[s.cloud.stored[j]].key)
    ensures var i := s.cloud.stored[j];
            && Wrapped(s, i) && j < |s.cloud.desk.log|
            && var source := Source(s, i);
            var claimed := Replay.Arrival(source.deviceId, source.sequence);
            && source.deviceId in config.deviceKeys
            && source.slot in s.table && ParseReading(s.table[source.slot]) == Ok(s.cloud.desk.log[j])
            && (config.deviceKeys[source.deviceId] !in config.leaked ==>
                  && source.slot in s.origin && s.origin[source.slot] == ByDevice(source.deviceId, source.sequence)
                  && (HonestDevice(s, source.deviceId) ==> Cloud.ArrivalOf(s.cloud.desk.log[j]) == claimed))
            && (Cloud.ArrivalOf(s.cloud.desk.log[j]) == claimed <==> Cloud.ReadsAs(s.table[source.slot], claimed))
  {
    hide Inv, Reaches, Known, ParseReading, LegacyAad, Cloud.ArrivalOf;
    CloudProcessInv(config, s);
    var i := s.cloud.stored[j];
    KeptWasWrapped(config, s, i);
    var w := s.origin[s.cloud.kept[i].slot];
    AcceptedByDevice(config, s, w.g, w.index);
  }

  /** And injectively, whatever the devices do: no two stored readings came from one encryption at
      the device hop, or at the session hop. */
  lemma EndToEndInjective(config: Config, steps: seq<Step>, s: State, i: nat, j: nat)
    requires Reaches(config, steps, s)
    requires i < j < |s.cloud.stored| && s.cloud.stored[i] < |s.cloud.kept| && s.cloud.stored[j] < |s.cloud.kept|
    requires !Known(config, s.netSecrets, s.cloud.kept[s.cloud.stored[i]].key)
    requires !Known(config, s.netSecrets, s.cloud.kept[s.cloud.stored[j]].key)
    ensures Wrapped(s, s.cloud.stored[i]) && Wrapped(s, s.cloud.stored[j])
    ensures s.cloud.kept[s.cloud.stored[i]].slot != s.cloud.kept[s.cloud.stored[j]].slot
    ensures Source(s, s.cloud.stored[i]).slot != Source(s, s.cloud.stored[j]).slot
  {
    hide Inv, Reaches, Known, Cloud.ArrivalOf, ParseReading, LegacyAad;
    CloudProcessInv(config, s);
    StoredAtMostOnce(config, steps, s);
    assert Cloud.ArrivalOf(s.cloud.desk.log[i]) != Cloud.ArrivalOf(s.cloud.desk.log[j]);
    KeptWasWrapped(config, s, s.cloud.stored[i]);
    KeptWasWrapped(config, s, s.cloud.stored[j]);
    var v, w := s.origin[s.cloud.kept[s.cloud.stored[i]].slot], s.origin[s.cloud.kept[s.cloud.stored[j]].slot];
    AcceptedByDevice(config, s, v.g, v.index);
    AcceptedByDevice(config, s, w.g, w.index);
  }
}
