/** Two replay guards in series (gateway/gateway.py and cloud/cloud.py): with honest devices, one
    live connection per device, one session on which no send fails, and FIFO delivery on it, the
    pipeline is one filter over the arrivals at the gateway, up to the first frame the cloud's
    reader refuses. */
module Pipeline {
  import opened Wrappers
  import opened Text
  import opened Protocol
  import opened Crypto
  import opened GatewayProcessing
  import opened CloudProcessing
  import opened Replay
  import opened Accounting
  import G = Gateway
  import GatewayRuns
  import C = Cloud

  // ----- what a second guard can lose -----

  /** Positive, and increasing for each device. */
  ghost predicate InOrder(s: seq<Arrival>) {
    && (forall i | 0 <= i < |s| :: s[i].sequence > 0)
    && (forall i, j | 0 <= i < j < |s| && s[i].device == s[j].device :: s[i].sequence < s[j].sequence)
  }

  lemma FilterShortens(s: seq<Arrival>)
    ensures |Filter(s)| <= |s|
  {
  }

  lemma NothingFiltered()
    ensures Filter([]) == [] && Final([]) == map[]
  {
  }

  /** A guard passes a whole stream exactly when it is positive and increasing for each device. So
      a second guard loses nothing exactly when the sends keep each device's order. */
  lemma {:induction false} TransparentIff(s: seq<Arrival>)
    ensures Filter(s) == s <==> InOrder(s)
  {
    hide Filter, Final, Accepts;
    NothingFiltered();
    if s != [] {
      var n := |s| - 1;
      var front := s[..n];
      assert s == front + [s[n]];
      TransparentIff(front);
      FilterShortens(front);
      FilterSnoc(front, s[n]);
      AcceptedIffRecord(s, n);
      if InOrder(s) {
        assert InOrder(front) && IsRecord(s, n);
      }
      if Filter(s) == s {
        assert |Filter(front)| == n;
        assert Filter(front) == Filter(s)[..n];
      }
    }
  }

  /** Two live connections of one device may send in the other order than the guard checked them;
      then the second guard drops a reading the first accepted. */
  lemma SwappedSendsLose(device: string)
    ensures var a, b := Arrival(device, 1), Arrival(device, 2);
            Filter([a, b]) == [a, b] && Filter([b, a]) == [b]
  {
    hide Filter, Final;
    var a, b := Arrival(device, 1), Arrival(device, 2);
    NothingFiltered();
    FilterSnoc([], a);
    FilterSnoc([a], b);
    FilterSnoc([], b);
    FilterSnoc([b], a);
    assert [] + [a] == [a] && [] + [b] == [b] && [a] + [b] == [a, b] && [b] + [a] == [b, a] && [b] + [] == [b];
  }

  // ----- the pipeline -----

  /** The registered devices, and the one session between gateway and cloud. */
  datatype Config = Config(deviceKeys: map<string, Key>, sessionKey: Key, sessionId: string)

  /** A forwarded reading: its bytes, and where they were encrypted. */
  datatype Frame = Frame(reading: bytes, nonce: bytes, ciphertext: bytes)

  /** `pending`: per device, the reading its handler has accepted and not sent yet. `wire` is what
      the cloud has not taken in yet; once its handler has closed the connection it never will.
      `presented`, `accepted` and `received` are history: what reached the first guard, what it let
      through, and what the cloud has read. */
  datatype State = State(
    table: Table,
    gateway: G.Desk,
    pending: map<string, bytes>,
    presented: seq<Arrival>,
    accepted: seq<bytes>,
    wire: seq<Frame>,
    received: seq<bytes>,
    cloud: C.Desk,
    closed: bool)

  datatype Step =
    | Deliver(deviceId: string, m: Message) // any message, forged or replayed, is read by a device's handler
    | Send(deviceId: string, nonce: bytes, ciphertext: bytes)
    | Receive

  /** What device keys encrypted carries the id and the sequence it was sent under; session ids are
      16 hexadecimal digits. */
  ghost predicate Honest(config: Config, t: Table) {
    && !config.sessionKey.Provisioned? && |config.sessionId| == 16 && PlainText(config.sessionId)
    && (forall d | d in config.deviceKeys :: config.deviceKeys[d].Provisioned?)
    && forall slot, d, n | slot in t && d in config.deviceKeys && slot.key == config.deviceKeys[d]
        && slot.aad == LegacyAad(d, n) ::
         C.ReadsAs(t[slot], Arrival(d, n))
  }

  function FrameSlot(config: Config, f: Frame): Slot {
    ProtectedSlot(config.sessionKey, config.sessionId, f.nonce, f.ciphertext)
  }

  function FrameMessage(config: Config, f: Frame): Message {
    BuildProtectedReading(config.sessionId, f.nonce, f.ciphertext)
  }

  function Messages(config: Config, wire: seq<Frame>): (ms: seq<Message>)
    ensures |ms| == |wire|
  {
    seq(|wire|, i requires 0 <= i < |wire| => FrameMessage(config, wire[i]))
  }

  /** The bytes of the frames on the wire, one after the other. */
  function WireBytes(config: Config, wire: seq<Frame>): bytes {
    EncodeAll(Messages(config, wire))
  }

  ghost predicate Enabled(config: Config, s: State, step: Step) {
    match step
    case Deliver(d, m) => d in config.deviceKeys && d !in s.pending && Readable(m)
    case Send(d, nonce, ciphertext) =>
      d in s.pending
      && var slot := FrameSlot(config, Frame(s.pending[d], nonce, ciphertext));
         slot !in s.table && CanSeal(s.table, slot, s.pending[d])
    case Receive => s.wire != [] && !s.closed
  }

  function OnDeliver(config: Config, s: State, d: string, m: Message): State
    requires d in config.deviceKeys
  {
    var key := config.deviceKeys[d];
    var s' := s.(presented := s.presented + GatewayRuns.Presents(s.table, key, d, m));
    match G.Screen(s.table, s.gateway, m, key, d)
    case (desk, Keep(reading, _)) =>
      s'.(gateway := desk, pending := s.pending[d := reading], accepted := s.accepted + [reading])
    case (desk, _) => s'.(gateway := desk)
  }

  function OnSend(config: Config, s: State, d: string, nonce: bytes, ciphertext: bytes): State
    requires d in s.pending
  {
    var f := Frame(s.pending[d], nonce, ciphertext);
    s.(table := s.table[FrameSlot(config, f) := s.pending[d]],
       gateway := s.gateway.Inc(MessagesForwarded),
       pending := s.pending - {d},
       wire := s.wire + [f])
  }

  /** The cloud's handler reads what comes next; an error that leaves its loop closes the
      connection and is counted. */
  function OnReceive(config: Config, s: State): State
    requires s.wire != []
  {
    match ReadMessage(WireBytes(config, s.wire)).0
    case Err(e) => s.(cloud := C.Settle(s.cloud, C.Stream(e)), closed := true)
    case Ok(m) =>
      var read := s.(received := s.received + [s.wire[0].reading], wire := s.wire[1..]);
      match C.OnMessage(s.table, s.cloud, m, config.sessionKey, config.sessionId)
      case (cloud, None) => read.(cloud := cloud)
      case (cloud, Some(ending)) => read.(cloud := C.Settle(cloud, ending), closed := true)
  }

  function Apply(config: Config, s: State, step: Step): State
    requires Enabled(config, s, step)
  {
    match step
    case Deliver(d, m) => OnDeliver(config, s, d, m)
    case Send(d, nonce, ciphertext) => OnSend(config, s, d, nonce, ciphertext)
    case Receive => OnReceive(config, s)
  }

  function Start(t: Table): State {
    State(t, G.Desk(map[], {}, map[], [], []), map[], [], [], [], [], C.Desk(map[], map[], [], map[]), false)
  }

  // ----- what every step keeps -----

  function Claim(plaintext: bytes): Arrival {
    match ParseReading(plaintext)
    case Ok(reading) => C.ArrivalOf(reading)
    case Err(_) => Arrival("", 0)
  }

  function Claims(plaintexts: seq<bytes>): seq<Arrival> {
    seq(|plaintexts|, i requires 0 <= i < |plaintexts| => Claim(plaintexts[i]))
  }

  function Readings(wire: seq<Frame>): seq<bytes> {
    seq(|wire|, i requires 0 <= i < |wire| => wire[i].reading)
  }

  function Parsed(plaintexts: seq<bytes>): seq<Message>
  {
    seq(|plaintexts|, i requires 0 <= i < |plaintexts| =>
      var r := ParseReading(plaintexts[i]); if r.Ok? then r.value else [])
  }

  /** The readings of one device, in order. */
  function ProjectReadings(plaintexts: seq<bytes>, device: string): seq<bytes> {
    if plaintexts == [] then []
    else
      var n := |plaintexts| - 1;
      ProjectReadings(plaintexts[..n], device) + if Claim(plaintexts[n]).device == device then [plaintexts[n]] else []
  }

  lemma ProjectReadingsSnoc(plaintexts: seq<bytes>, plaintext: bytes, device: string)
    ensures ProjectReadings(plaintexts + [plaintext], device)
         == ProjectReadings(plaintexts, device) + if Claim(plaintext).device == device then [plaintext] else []
  {
    assert (plaintexts + [plaintext])[..|plaintexts|] == plaintexts;
  }

  function Waiting(pending: map<string, bytes>, d: string): seq<bytes> {
    if d in pending then [pending[d]] else []
  }

  /** The first guard: what it accepted is its filtering of what was presented. */
  ghost predicate FirstGuard(s: State) {
    && s.gateway.guard == Final(s.presented)
    && Claims(s.accepted) == Filter(s.presented)
  }

  /** And it counts what it accepted as processed, and what left as forwarded. */
  ghost predicate GatewayCounts(s: State) {
    && s.gateway.Tally(MessagesProcessed) == |s.accepted|
    && s.gateway.Tally(MessagesForwarded) == |Flow(s)|
  }

  /** What left the gateway, in order. */
  function Flow(s: State): seq<bytes> { s.received + Readings(s.wire) }

  /** For each device, what left the gateway and then what waits there is what was accepted. */
  ghost predicate Conserved(pending: map<string, bytes>, flow: seq<bytes>, accepted: seq<bytes>) {
    && (forall d | d in pending :: C.ReadsAs(pending[d], Arrival(d, Claim(pending[d]).sequence)))
    && (forall i | 0 <= i < |flow| :: ParseReading(flow[i]).Ok?)
    && (forall d :: ProjectReadings(flow, d) + Waiting(pending, d) == ProjectReadings(accepted, d))
  }

  /** Each device's readings leave in order, and what waits comes after them. */
  ghost predicate Ordered(guard: LastSeen, pending: map<string, bytes>, flow: seq<bytes>) {
    && InOrder(Claims(flow))
    && (forall i | 0 <= i < |flow| :: Claim(flow[i]).sequence <= Last(guard, Claim(flow[i]).device))
    && (forall d | d in pending :: 0 < Claim(pending[d]).sequence <= Last(guard, d))
    && (forall d, i | d in pending && 0 <= i < |flow| && Claim(flow[i]).device == d ::
          Claim(flow[i]).sequence < Claim(pending[d]).sequence)
  }

  /** The second guard has passed everything it was shown, and only a refused frame is an error. */
  ghost predicate SecondGuard(cloud: C.Desk, received: seq<bytes>, closed: bool) {
    && cloud.guard == Final(Claims(received))
    && cloud.log == Parsed(received)
    && cloud.Tally(MessagesRejected) == 0 && cloud.Tally(Errors) == One(closed)
    && cloud.Tally(MessagesReceived) == cloud.Tally(MessagesProcessed) == |received|
  }

  ghost predicate OnWire(config: Config, t: Table, wire: seq<Frame>) {
    forall i | 0 <= i < |wire| ::
      && |wire[i].nonce| == NONCE_LENGTH && |wire[i].ciphertext| == |wire[i].reading| + TAG_LENGTH
      && FrameSlot(config, wire[i]) in t && t[FrameSlot(config, wire[i])] == wire[i].reading
  }

  /** Everything read was short enough, and the connection was closed by a reading that is not. */
  ghost predicate ClosedByLong(s: State) {
    && (forall i | 0 <= i < |s.received| :: |s.received[i]| <= MAX_PROTECTED_READING)
    && (s.closed ==> s.wire != [] && |s.wire[0].reading| > MAX_PROTECTED_READING)
  }

  ghost predicate Inv(config: Config, s: State) {
    && Honest(config, s.table)
    && FirstGuard(s) && GatewayCounts(s)
    && Conserved(s.pending, Flow(s), s.accepted)
    && Ordered(s.gateway.guard, s.pending, Flow(s))
    && SecondGuard(s.cloud, s.received, s.closed)
    && ClosedByLong(s)
    && OnWire(config, s.table, s.wire)
  }

  lemma StartGuards(t: Table)
    ensures var s := Start(t);
            FirstGuard(s) && GatewayCounts(s) && SecondGuard(s.cloud, s.received, s.closed) && ClosedByLong(s)
  {
    hide Claim, ParseReading;
  }

  lemma StartFlow(config: Config, t: Table)
    ensures var s := Start(t);
            && s.table == t && Conserved(s.pending, Flow(s), s.accepted)
            && Ordered(s.gateway.guard, s.pending, Flow(s)) && OnWire(config, s.table, s.wire)
  {
    hide Claim, ParseReading, C.ReadsAs, FrameSlot, Last;
  }

  lemma StartInv(config: Config, t: Table)
    requires Honest(config, t)
    ensures Inv(config, Start(t))
  {
    hide Honest, FirstGuard, GatewayCounts, Conserved, Ordered, SecondGuard, OnWire, Start;
    StartGuards(t);
    StartFlow(config, t);
  }

  /** A kept message of a registered device claims that device and the sequence it is kept under. */
  lemma KeptReadsAs(config: Config, t: Table, desk: G.Desk, d: string, m: Message)
    requires Honest(config, t) && d in config.deviceKeys
    ensures var (desk', r) := G.Screen(t, desk, m, config.deviceKeys[d], d);
            var presents := GatewayRuns.Presents(t, config.deviceKeys[d], d, m);
            && (r.Keep? ==> C.ReadsAs(r.reading, Arrival(d, r.sequence)) && presents == [Arrival(d, r.sequence)]
                            && Accepts(desk.guard, d, r.sequence) && desk'.guard == Record(desk.guard, d, r.sequence))
            && (!r.Keep? ==> desk'.guard == desk.guard
                             && (presents == [] || (presents == [Arrival(d, presents[0].sequence)]
                                 && !Accepts(desk.guard, d, presents[0].sequence))))
  {
    hide G.Screen, C.ReadsAs, ParseReading, LegacyAad, DecryptLegacyMessage, Accepts, Record;
    G.KeptIsAuthentic(t, desk, m, config.deviceKeys[d], d);
    var (desk', r) := G.Screen(t, desk, m, config.deviceKeys[d], d);
    if r.Keep? {
      GatewayRuns.LegacySlotNames(config.deviceKeys[d], m, d, r.sequence);
    }
  }

  lemma ClaimReadsAs(plaintext: bytes, a: Arrival)
    requires C.ReadsAs(plaintext, a)
    ensures Claim(plaintext) == a && ParseReading(plaintext).Ok?
  {
  }

  /** One more reading of d is accepted and waits. */
  lemma KeepConserves(pending: map<string, bytes>, flow: seq<bytes>, accepted: seq<bytes>, d: string, reading: bytes,
      n: int)
    requires Conserved(pending, flow, accepted) && d !in pending && C.ReadsAs(reading, Arrival(d, n))
    ensures Conserved(pending[d := reading], flow, accepted + [reading])
  {
    hide ParseReading, C.ReadsAs, Claim;
    ClaimReadsAs(reading, Arrival(d, n));
    forall e
      ensures ProjectReadings(flow, e) + Waiting(pending[d := reading], e) == ProjectReadings(accepted + [reading], e)
    {
      ProjectReadingsSnoc(accepted, reading, e);
    }
  }

  lemma KeepOrders(guard: LastSeen, presented: seq<Arrival>, pending: map<string, bytes>, flow: seq<bytes>,
                   d: string, reading: bytes, n: int)
    requires Ordered(guard, pending, flow) && guard == Final(presented) && C.ReadsAs(reading, Arrival(d, n))
    requires Accepts(guard, d, n)
    ensures Ordered(Record(guard, d, n), pending[d := reading], flow)
  {
    hide InOrder, Claim, C.ReadsAs, ParseReading;
    ClaimReadsAs(reading, Arrival(d, n));
    LastIsHighest(presented, d);
  }

  lemma DeliverKeepsInv(config: Config, s: State, d: string, m: Message)
    requires Inv(config, s) && Enabled(config, s, Deliver(d, m))
    ensures Inv(config, OnDeliver(config, s, d, m))
  {
    hide G.Screen, GatewayRuns.Presents, Honest, Conserved, Ordered, SecondGuard, OnWire, Accepts, C.ReadsAs, Claim,
         Final, Filter, ParseReading;
    var key := config.deviceKeys[d];
    var presents := GatewayRuns.Presents(s.table, key, d, m);
    KeptReadsAs(config, s.table, s.gateway, d, m);
    G.ScreenTallies(s.table, s.gateway, m, key, d);
    var (desk, r) := G.Screen(s.table, s.gateway, m, key, d);
    if presents == [] {
      assert s.presented + presents == s.presented;
    } else {
      FilterSnoc(s.presented, presents[0]);
      assert presents == [presents[0]];
    }
    if r.Keep? {
      ClaimReadsAs(r.reading, Arrival(d, r.sequence));
      assert Claims(s.accepted + [r.reading]) == Claims(s.accepted) + [Arrival(d, r.sequence)];
      KeepConserves(s.pending, Flow(s), s.accepted, d, r.reading, r.sequence);
      KeepOrders(s.gateway.guard, s.presented, s.pending, Flow(s), d, r.reading, r.sequence);
    } else {
      assert Filter(s.presented) + [] == Filter(s.presented);
    }
  }

  lemma SendConserves(pending: map<string, bytes>, flow: seq<bytes>, accepted: seq<bytes>, d: string)
    requires Conserved(pending, flow, accepted) && d in pending
    ensures Conserved(pending - {d}, flow + [pending[d]], accepted)
  {
    hide ParseReading, C.ReadsAs, Claim;
    ClaimReadsAs(pending[d], Arrival(d, Claim(pending[d]).sequence));
    forall e
      ensures ProjectReadings(flow + [pending[d]], e) + Waiting(pending - {d}, e) == ProjectReadings(accepted, e)
    {
      ProjectReadingsSnoc(flow, pending[d], e);
      assert ProjectReadings(flow, e) + Waiting(pending, e) == ProjectReadings(accepted, e);
    }
  }

  lemma SendOrders(guard: LastSeen, pending: map<string, bytes>, flow: seq<bytes>, d: string)
    requires Ordered(guard, pending, flow) && d in pending && Claim(pending[d]).device == d
    ensures Ordered(guard, pending - {d}, flow + [pending[d]])
  {
    hide Claim, ParseReading;
    assert Claims(flow + [pending[d]]) == Claims(flow) + [Claim(pending[d])];
    assert forall i | 0 <= i < |flow| :: Claims(flow)[i] == Claim(flow[i]);
  }

  lemma SendKeepsHonest(config: Config, t: Table, slot: Slot, plaintext: bytes)
    requires Honest(config, t) && slot.key == config.sessionKey
    ensures Honest(config, t[slot := plaintext])
  {
    hide C.ReadsAs, LegacyAad;
  }

  lemma SendKeepsInv(config: Config, s: State, d: string, nonce: bytes, ciphertext: bytes)
    requires Inv(config, s) && Enabled(config, s, Send(d, nonce, ciphertext))
    ensures Inv(config, OnSend(config, s, d, nonce, ciphertext))
  {
    hide Honest, Ordered, SecondGuard, Claim, Final, Filter, ParseReading, C.ReadsAs, SessionAad;
    var f := Frame(s.pending[d], nonce, ciphertext);
    var s' := OnSend(config, s, d, nonce, ciphertext);
    assert Readings(s.wire + [f]) == Readings(s.wire) + [s.pending[d]];
    assert Flow(s') == Flow(s) + [s.pending[d]];
    SendKeepsHonest(config, s.table, FrameSlot(config, f), s.pending[d]);
    ClaimReadsAs(s.pending[d], Arrival(d, Claim(s.pending[d]).sequence));
    hide Conserved;
    SendConserves(s.pending, Flow(s), s.accepted, d);
    SendOrders(s.gateway.guard, s.pending, Flow(s), d);
  }

  /** A reading that was wrapped for the session and claims a fresh sequence is stored as it was
      parsed, and counted once. */
  lemma HonestReadingStored(config: Config, t: Table, desk: C.Desk, f: Frame)
    requires config.sessionId != "" && |f.nonce| == NONCE_LENGTH
    requires FrameSlot(config, f) in t && t[FrameSlot(config, f)] == f.reading && ParseReading(f.reading).Ok?
    requires Claim(f.reading).sequence > 0 && Accepts(desk.guard, Claim(f.reading).device, Claim(f.reading).sequence)
    ensures var (d, ending) := C.OnMessage(t, desk, FrameMessage(config, f), config.sessionKey, config.sessionId);
            && ending.None?
            && d.guard == Record(desk.guard, Claim(f.reading).device, Claim(f.reading).sequence)
            && d.log == desk.log + [ParseReading(f.reading).value]
            && d.Tally(MessagesReceived) == desk.Tally(MessagesReceived) + 1
            && d.Tally(MessagesProcessed) == desk.Tally(MessagesProcessed) + 1
            && d.Tally(MessagesRejected) == desk.Tally(MessagesRejected)
            && d.Tally(Errors) == desk.Tally(Errors)
  {
    hide DecryptProtectedReading, ParseReading, BuildProtectedReading, SessionAad, Get;
    ProtectedRoundTrip(t, config.sessionKey, config.sessionId, f.nonce, f.ciphertext);
  }

  lemma ReceiveKeepsSecondGuard(config: Config, t: Table, cloud: C.Desk, received: seq<bytes>, f: Frame,
      flow: seq<bytes>)
    requires SecondGuard(cloud, received, false) && InOrder(Claims(flow)) && received + [f.reading] <= flow
    requires config.sessionId != "" && |f.nonce| == NONCE_LENGTH
    requires FrameSlot(config, f) in t && t[FrameSlot(config, f)] == f.reading && ParseReading(f.reading).Ok?
    ensures var (cloud', ending) := C.OnMessage(t, cloud, FrameMessage(config, f), config.sessionKey, config.sessionId);
            ending.None? && SecondGuard(cloud', received + [f.reading], false)
  {
    hide C.OnMessage, ParseReading, Claim, Record, Accepts, SessionAad, Final, InOrder, FrameSlot, FrameMessage, Count;
    NextIsFresh(received, f.reading, flow);
    HonestReadingStored(config, t, cloud, f);
    assert Parsed(received + [f.reading]) == Parsed(received) + [ParseReading(f.reading).value];
  }

  lemma FlowMoves(s: State, s': State)
    requires s.wire != [] && s'.received == s.received + [s.wire[0].reading] && s'.wire == s.wire[1..]
    ensures Flow(s') == Flow(s) && s.received + [s.wire[0].reading] <= Flow(s)
  {
    assert Readings(s.wire) == [s.wire[0].reading] + Readings(s.wire[1..]);
  }

  /** The cloud's reader takes the next frame exactly when its reading is short enough. */
  lemma NextFrameRead(config: Config, wire: seq<Frame>)
    requires wire != [] && |config.sessionId| == 16 && PlainText(config.sessionId)
    requires |wire[0].nonce| == NONCE_LENGTH && |wire[0].ciphertext| == |wire[0].reading| + TAG_LENGTH
    ensures ReadMessage(WireBytes(config, wire)).0
         == if |wire[0].reading| <= MAX_PROTECTED_READING then Ok(FrameMessage(config, wire[0])) else Err(ProtocolError)
  {
    hide PlainText, EncodeMessage, ReadMessage, BuildProtectedReading;
    var f, m := wire[0], FrameMessage(config, wire[0]);
    ProtectedIsWellFormed(config.sessionId, f.nonce, f.ciphertext);
    ProtectedFrameSize(config.sessionId, f.nonce, f.ciphertext, |f.reading|);
    ReadOne(m);
    ReadFrame(m, EncodeAll(Messages(config, wire)[1..]));
  }

  lemma ReceiveKeepsInv(config: Config, s: State)
    requires Inv(config, s) && s.wire != [] && !s.closed
    ensures Inv(config, OnReceive(config, s))
  {
    hide C.OnMessage, ParseReading, Claim, C.ReadsAs, SecondGuard, FirstGuard, InOrder, FrameSlot, Flow, FrameMessage,
         ReadMessage, WireBytes, PlainText, C.Settle;
    var s' := OnReceive(config, s);
    NextFrameRead(config, s.wire);
    if |s.wire[0].reading| <= MAX_PROTECTED_READING {
      FlowMoves(s, s');
      assert Flow(s)[|s.received|] == s.wire[0].reading;
      ReceiveKeepsSecondGuard(config, s.table, s.cloud, s.received, s.wire[0], Flow(s));
    } else {
      CloseKeepsSecondGuard(s.cloud, s.received);
      SameFlow(s, s');
    }
    hide Conserved, Ordered;
    SameHistory(s, s');
  }

  lemma CloseKeepsSecondGuard(cloud: C.Desk, received: seq<bytes>)
    requires SecondGuard(cloud, received, false)
    ensures SecondGuard(C.Settle(cloud, C.Stream(ProtocolError)), received, true)
  {
    hide Final, Filter, ParseReading;
  }

  lemma SameFlow(s: State, s': State)
    requires s'.received == s.received && s'.wire == s.wire
    ensures Flow(s') == Flow(s)
  {
  }

  lemma SameHistory(s: State, s': State)
    requires FirstGuard(s) && s'.gateway == s.gateway && s'.presented == s.presented && s'.accepted == s.accepted
    ensures FirstGuard(s')
  {
  }

  /** What comes next in an ordered flow passes a guard that has seen what came before. */
  lemma NextIsFresh(received: seq<bytes>, reading: bytes, flow: seq<bytes>)
    requires InOrder(Claims(flow)) && received + [reading] <= flow
    ensures Claim(reading).sequence > 0
    ensures Accepts(Final(Claims(received)), Claim(reading).device, Claim(reading).sequence)
    ensures Final(Claims(received + [reading]))
         == Record(Final(Claims(received)), Claim(reading).device, Claim(reading).sequence)
  {
    hide Claim, ParseReading;
    var seen := Claims(received + [reading]);
    assert forall i | 0 <= i < |seen| :: Claims(flow)[i] == seen[i];
    assert InOrder(seen);
    assert seen == Claims(received) + [Claim(reading)];
    FilterSnoc(Claims(received), Claim(reading));
    AcceptedIffRecord(seen, |received|);
    assert seen[..|received|] == Claims(received);
  }

  lemma StepKeepsInv(config: Config, s: State, step: Step)
    requires Inv(config, s) && Enabled(config, s, step)
    ensures Inv(config, Apply(config, s, step))
  {
    hide Inv, OnDeliver, OnSend, OnReceive;
    match step
    case Deliver(d, m) => DeliverKeepsInv(config, s, d, m);
    case Send(d, nonce, ciphertext) => SendKeepsInv(config, s, d, nonce, ciphertext);
    case Receive => ReceiveKeepsInv(config, s);
  }

  // ----- runs -----

  ghost predicate Valid(config: Config, s: State, steps: seq<Step>)
    decreases |steps|
  {
    steps == [] || (Enabled(config, s, steps[0]) && Valid(config, Apply(config, s, steps[0]), steps[1..]))
  }

  function Exec(config: Config, s: State, steps: seq<Step>): State
    requires Valid(config, s, steps)
    decreases |steps|
  {
    if steps == [] then s else Exec(config, Apply(config, s, steps[0]), steps[1..])
  }

  lemma {:induction false} ExecKeepsInv(config: Config, s: State, steps: seq<Step>)
    requires Inv(config, s) && Valid(config, s, steps)
    ensures Inv(config, Exec(config, s, steps))
    decreases |steps|
  {
    hide Inv, Apply, Enabled;
    if steps != [] {
      StepKeepsInv(config, s, steps[0]);
      ExecKeepsInv(config, Apply(config, s, steps[0]), steps[1..]);
    }
  }

  /** Two guards equal one. At every moment of every run the cloud has rejected nothing, its log is
      what it has read, and for each device what was stored, what is on the wire and what waits at
      the gateway are together the record highs of the arrivals, in order. When nothing is in
      flight, the stored readings of a device are one guard's filtering of that device's arrivals.
      The cloud reads up to the first accepted reading of more than 49058 bytes and closes there. */
  lemma TwoGuardsAreOne(config: Config, t: Table, steps: seq<Step>, d: string)
    requires Honest(config, t) && Valid(config, Start(t), steps)
    ensures var s := Exec(config, Start(t), steps);
            && s.cloud.Tally(MessagesRejected) == 0
            && s.cloud.log == Parsed(s.received)
            && (forall i | 0 <= i < |s.received| :: |s.received[i]| <= MAX_PROTECTED_READING)
            && s.cloud.Tally(Errors) == One(s.closed)
            && (s.closed ==> s.wire != [] && |s.wire[0].reading| > MAX_PROTECTED_READING
                             && s.wire[0].reading in s.accepted)
            && ProjectReadings(Flow(s), d) + Waiting(s.pending, d) == ProjectReadings(s.accepted, d)
            && Claims(s.accepted) == RecordHighs(s.presented, |s.presented|)
            && (s.wire == [] && d !in s.pending ==>
                  && ProjectReadings(s.received, d) == ProjectReadings(s.accepted, d)
                  && Project(Claims(s.received), d) == Filter(Project(s.presented, d)))
  {
    hide Honest;
    StartInv(config, t);
    ExecKeepsInv(config, Start(t), steps);
    hide Valid, Inv;
    AtRest(config, Exec(config, Start(t), steps), d);
  }

  lemma AtRest(config: Config, s: State, d: string)
    requires Inv(config, s)
    ensures s.cloud.Tally(MessagesRejected) == 0 && s.cloud.log == Parsed(s.received)
    ensures s.cloud.Tally(Errors) == One(s.closed)
    ensures forall i | 0 <= i < |s.received| :: |s.received[i]| <= MAX_PROTECTED_READING
    ensures s.closed ==> s.wire != [] && |s.wire[0].reading| > MAX_PROTECTED_READING
                         && s.wire[0].reading in s.accepted
    ensures ProjectReadings(Flow(s), d) + Waiting(s.pending, d) == ProjectReadings(s.accepted, d)
    ensures Claims(s.accepted) == RecordHighs(s.presented, |s.presented|)
    ensures s.wire == [] && d !in s.pending ==>
              && ProjectReadings(s.received, d) == ProjectReadings(s.accepted, d)
              && Project(Claims(s.received), d) == Filter(Project(s.presented, d))
  {
    hide Honest, Ordered, OnWire, C.ReadsAs, ParseReading, Claim, Filter, Final, RecordHighs;
    FilterIsRecordHighs(s.presented);
    FilterCommutes(s.presented, d);
    ProjectClaims(s.accepted, d);
    ProjectClaims(s.received, d);
    if s.closed {
      var long := s.wire[0].reading;
      assert Flow(s)[|s.received|] == long;
      ProjectHas(Flow(s), long);
      ProjectHas(s.accepted, long);
      assert ProjectReadings(Flow(s), Claim(long).device) + Waiting(s.pending, Claim(long).device)
          == ProjectReadings(s.accepted, Claim(long).device);
    }
    if s.wire == [] && d !in s.pending {
      assert Flow(s) == s.received;
      assert ProjectReadings(s.received, d) + [] == ProjectReadings(s.accepted, d);
    }
  }

  lemma {:induction false} ProjectHas(plaintexts: seq<bytes>, plaintext: bytes)
    ensures plaintext in ProjectReadings(plaintexts, Claim(plaintext).device) <==> plaintext in plaintexts
  {
    hide Claim, ParseReading;
    if plaintexts != [] {
      var n := |plaintexts| - 1;
      ProjectHas(plaintexts[..n], plaintext);
      assert plaintexts == plaintexts[..n] + [plaintexts[n]];
    }
  }

  lemma {:induction false} ProjectClaims(plaintexts: seq<bytes>, d: string)
    ensures Project(Claims(plaintexts), d) == Claims(ProjectReadings(plaintexts, d))
  {
    hide Claim, ParseReading;
    if plaintexts != [] {
      var n := |plaintexts| - 1;
      ProjectClaims(plaintexts[..n], d);
      assert plaintexts == plaintexts[..n] + [plaintexts[n]];
      assert Claims(plaintexts) == Claims(plaintexts[..n]) + [Claim(plaintexts[n])];
      ProjectSnoc(Claims(plaintexts[..n]), Claim(plaintexts[n]), d);
      assert Claims(ProjectReadings(plaintexts[..n], d) + [plaintexts[n]])
          == Claims(ProjectReadings(plaintexts[..n], d)) + [Claim(plaintexts[n])];
    }
  }

  // ----- one reading, and the whole wire -----

  lemma RunsOn(config: Config, s: State, step: Step, rest: seq<Step>)
    requires Enabled(config, s, step) && Valid(config, Apply(config, s, step), rest)
    ensures Valid(config, s, [step] + rest)
    ensures Exec(config, s, [step] + rest) == Exec(config, Apply(config, s, step), rest)
  {
    hide Enabled, Apply;
    assert ([step] + rest)[1..] == rest;
  }

  /** A device's own first reading is accepted at the gateway. */
  lemma FirstReadingAccepted(config: Config, t: Table, d: string, n: int, slot: Slot)
    requires d in config.deviceKeys && n > 0
    requires slot in t && slot.key == config.deviceKeys[d] && slot.aad == LegacyAad(d, n)
    requires |slot.nonce| == NONCE_LENGTH
    requires ParseReading(t[slot]).Ok?
    ensures var s := OnDeliver(config, Start(t), d, LegacyReading(d, n, slot.nonce, slot.ciphertext));
            && s.table == t && s.pending == map[d := t[slot]] && s.accepted == [t[slot]]
            && s.cloud == Start(t).cloud && s.wire == [] && s.received == [] && !s.closed
  {
    hide DecryptLegacyMessage, ParseReading, LegacyAad, LegacyReading, Bump;
    LegacyRoundTrip(t, slot, d, n);
  }

  /** From a device's frame to the cloud's log, for a reading of any length that the gateway's reader
      takes: it is accepted and sent, and then stored exactly when it has at most 49058 bytes;
      otherwise the cloud closes the session on it and stores nothing. Such readings exist only for
      ids and sequences of fewer than 13 characters together (`CapGap`). */
  lemma StoredIffShort(config: Config, t: Table, d: string, n: int, slot: Slot, nonce: bytes, ciphertext: bytes)
    returns (steps: seq<Step>)
    requires Honest(config, t) && d in config.deviceKeys && n > 0
    requires slot in t && slot.key == config.deviceKeys[d] && slot.aad == LegacyAad(d, n)
    requires |slot.nonce| == NONCE_LENGTH
    requires Fits(LegacyReading(d, n, slot.nonce, slot.ciphertext))
    requires var wrapped := FrameSlot(config, Frame(t[slot], nonce, ciphertext));
             wrapped !in t && CanSeal(t, wrapped, t[slot])
    ensures Valid(config, Start(t), steps) && ParseReading(t[slot]).Ok?
    ensures var s := Exec(config, Start(t), steps);
            && s.accepted == [t[slot]] && s.pending == map[]
            && (s.closed <==> |t[slot]| > MAX_PROTECTED_READING)
            && s.cloud.log == (if |t[slot]| <= MAX_PROTECTED_READING then [ParseReading(t[slot]).value] else [])
            && (s.wire == [] <==> |t[slot]| <= MAX_PROTECTED_READING)
  {
    hide OnDeliver, OnSend, OnReceive, Inv, ParseReading, LegacyAad, LegacyReading, FrameSlot, Fits, Readable;
    var s0 := Start(t);
    StartInv(config, t);
    assert C.ReadsAs(t[slot], Arrival(d, n));
    hide Honest;
    var deliver, send := Deliver(d, LegacyReading(d, n, slot.nonce, slot.ciphertext)), Send(d, nonce, ciphertext);
    LegacyIsRead(d, n, slot.nonce, slot.ciphertext);
    FirstReadingAccepted(config, t, d, n, slot);
    StepKeepsInv(config, s0, deliver);
    var s1 := Apply(config, s0, deliver);
    OneSent(config, s1, d, t[slot], nonce, ciphertext);
    var s2 := Apply(config, s1, send);
    OneReceived(config, s2, Frame(t[slot], nonce, ciphertext));
    RunsOn(config, s2, Receive, []);
    RunsOn(config, s1, send, [Receive]);
    RunsOn(config, s0, deliver, [send, Receive]);
    steps := [deliver] + [send, Receive];
    assert [send] + [Receive] == [send, Receive];
  }

  lemma LegacyIsRead(d: string, n: int, nonce: bytes, ciphertext: bytes)
    requires Fits(LegacyReading(d, n, nonce, ciphertext))
    ensures Readable(LegacyReading(d, n, nonce, ciphertext))
  {
    hide Fits, Readable, LegacyReading;
    LegacyIsWellFormed(d, n, nonce, ciphertext);
    ReadOne(LegacyReading(d, n, nonce, ciphertext));
  }

  lemma OneSent(config: Config, s: State, d: string, reading: bytes, nonce: bytes, ciphertext: bytes)
    requires Inv(config, s) && Enabled(config, s, Send(d, nonce, ciphertext))
    requires s.pending == map[d := reading] && s.accepted == [reading] && s.wire == [] && s.received == []
        && !s.closed
    ensures var s' := Apply(config, s, Send(d, nonce, ciphertext));
            && Inv(config, s') && s'.pending == map[] && s'.accepted == [reading]
            && s'.wire == [Frame(reading, nonce, ciphertext)] && s'.received == [] && !s'.closed
  {
    StepKeepsInv(config, s, Send(d, nonce, ciphertext));
    hide Inv, Enabled, FrameSlot;
  }

  lemma HeadOfWire(config: Config, s: State)
    requires Inv(config, s) && s.wire != []
    ensures |config.sessionId| == 16 && PlainText(config.sessionId) && ParseReading(s.wire[0].reading).Ok?
    ensures |s.wire[0].nonce| == NONCE_LENGTH && |s.wire[0].ciphertext| == |s.wire[0].reading| + TAG_LENGTH
  {
    hide FirstGuard, Ordered, SecondGuard, ParseReading, FrameSlot, PlainText;
    assert Flow(s)[|s.received|] == s.wire[0].reading;
  }

  lemma LogOf(config: Config, s: State)
    requires Inv(config, s)
    ensures s.cloud.log == Parsed(s.received) && ClosedByLong(s)
  {
    hide Honest, FirstGuard, Conserved, Ordered, OnWire, Final, Parsed;
  }

  lemma OneReceived(config: Config, s: State, f: Frame)
    requires Inv(config, s) && s.wire == [f] && s.received == [] && !s.closed
    ensures ParseReading(f.reading).Ok?
    ensures var s' := OnReceive(config, s);
            && s'.accepted == s.accepted && s'.pending == s.pending
            && (s'.closed <==> |f.reading| > MAX_PROTECTED_READING)
            && s'.cloud.log == (if |f.reading| <= MAX_PROTECTED_READING then [ParseReading(f.reading).value] else [])
            && (s'.wire == [] <==> |f.reading| <= MAX_PROTECTED_READING)
  {
    hide Inv, C.OnMessage, C.Settle, ParseReading, FrameSlot, FrameMessage, PlainText, ReadMessage, WireBytes;
    HeadOfWire(config, s);
    ReceiveKeepsInv(config, s);
    NextFrameRead(config, s.wire);
    LogOf(config, OnReceive(config, s));
  }

  /** With the gateway's 16-character session ids and readings of at most 49058 bytes, the frames on
      the wire are read back one by one as they were sent. */
  lemma WireIsReadBack(config: Config, t: Table, wire: seq<Frame>)
    requires OnWire(config, t, wire) && |config.sessionId| == 16 && PlainText(config.sessionId)
    requires forall i | 0 <= i < |wire| :: |wire[i].reading| <= MAX_PROTECTED_READING
    ensures Drain(WireBytes(config, wire)) == (Messages(config, wire), ConnectionClosed)
  {
    hide FrameSlot, PlainText, EncodeMessage, ReadMessage, Drain, EncodeAll, BuildProtectedReading;
    var ms := Messages(config, wire);
    forall i | 0 <= i < |ms|
      ensures WellFormedMessage(ms[i]) && |EncodeMessage(ms[i])| <= MAX_MESSAGE_BYTES
    {
      var f := wire[i];
      ProtectedIsWellFormed(config.sessionId, f.nonce, f.ciphertext);
      ProtectedFrameSize(config.sessionId, f.nonce, f.ciphertext, |f.reading|);
      ReadOne(ms[i]);
    }
    StreamRoundTrip(ms);
  }
}
